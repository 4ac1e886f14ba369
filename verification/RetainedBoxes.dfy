/**
 Retained boxes over any history: every callback, on every thread, takes boxes from its
 context or makes new ones, records into them under the span's guard, and gives them back
 to whatever context it can acquire. A span is named by its instance, a box by its
 position in allocation order.
 */
module RetainedBoxes {
  import opened Prelude
  import opened Visitors
  import Flows

  const RETAINED: nat := 4

  /** The first occupied (or free) position, or the length. */
  function FirstWhere<T>(boxes: seq<Option<T>>, occupied: bool): (k: nat)
    ensures k <= |boxes|
    ensures k < |boxes| ==> boxes[k].Some? == occupied
  {
    if boxes == [] || boxes[0].Some? == occupied then 0 else 1 + FirstWhere(boxes[1..], occupied)
  }

  lemma {:induction false} FirstWhereIs<T>(boxes: seq<Option<T>>, occupied: bool, k: nat)
    requires k <= |boxes| && (k < |boxes| ==> boxes[k].Some? == occupied)
    requires forall j :: 0 <= j < k ==> boxes[j].Some? != occupied
    ensures FirstWhere(boxes, occupied) == k
  {
    if k > 0 {
      FirstWhereIs(boxes[1..], occupied, k - 1);
    }
  }

  // ------------------------------------------------------------ states

  datatype Content = Content(fields: seq<Stored>, pending: seq<Flows.Endpoint>, poll: Option<nat>)

  const EMPTY: Content := Content([], [], None)

  datatype Context = Context(slots: seq<Option<nat>>, borrower: Option<nat>)

  /**
   History of one span's instance: its own records since birth, the endpoints queued on it
   and not yet written, and its poll flow.
   */
  datatype Story = Story(records: seq<(Text, Recorded)>, pending: seq<Flows.Endpoint>, poll: Option<nat>)

  const BIRTH: Story := Story([], [], None)

  datatype Place = Live(span: nat) | Hand(actor: nat) | Kept(context: nat, slot: nat) | Dropped

  /**
   `Wanting` and `Filling` are `on_new_span` before the state is inserted; `Editing` holds
   a guard on a live span (`on_record`, `on_follows_from`, `on_enter`, `on_exit`);
   `Closing`, `Returning` and `Recycling` are `on_close`, with its span's history at hand.
   */
  datatype Pc =
    | Idle
    | Wanting(span: nat)
    | Filling(span: nat, box: nat)
    | Editing(span: nat)
    | Closing(span: nat, box: nat)
    | Returning(span: nat, box: nat, context: nat)
    | Recycling(span: nat, box: nat)
    | Exiting(context: nat, slot: nat)

  datatype State = State(
    pcs: seq<Pc>, contexts: seq<Context>, boxes: seq<Content>, spans: map<nat, Option<nat>>,
    stories: map<nat, Story>, places: seq<Place>)

  /** `context` is the context a callback acquires at this step, or none. */
  datatype Action =
    | NewContext
    | NewSpan(span: nat, wants: bool)
    | Edit(span: nat)
    | Close(span: nat)
    | ExitThread(exiting: nat)
    | Attach(context: Option<nat>)
    | Record(name: Text, value: Recorded)
    | SetPoll(flow: nat)
    | QueueFlow(endpoint: Flows.Endpoint)
    | WriteFlows
    | Advance(context: Option<nat>)

  datatype Label = Label(actor: nat, action: Action)

  function Initial(actors: nat): State {
    State(seq(actors, i requires 0 <= i < actors => Idle), [], [], map[], map[], [])
  }

  // ------------------------------------------------------------ parts of steps

  function Go(s: State, a: nat, pc: Pc): State
    requires a < |s.pcs|
  {
    s.(pcs := s.pcs[a := pc])
  }

  predicate CanAcquire(s: State, context: Option<nat>) {
    context.Some? ==> context.value < |s.contexts| && s.contexts[context.value].borrower == None
  }

  function Borrow(s: State, c: nat, borrower: Option<nat>): State
    requires c < |s.contexts|
  {
    s.(contexts := s.contexts[c := s.contexts[c].(borrower := borrower)])
  }

  function PutSlot(s: State, c: nat, k: nat, box: Option<nat>): State
    requires c < |s.contexts| && k < |s.contexts[c].slots|
  {
    s.(contexts := s.contexts[c := s.contexts[c].(slots := s.contexts[c].slots[k := box])])
  }

  function Move(s: State, b: nat, place: Place): State
    requires b < |s.places|
  {
    s.(places := s.places[b := place])
  }

  /** A new box, empty by default. */
  function Make(s: State, place: Place): State {
    s.(boxes := s.boxes + [EMPTY], places := s.places + [place])
  }

  /** The box a context would hand out, if it keeps one. */
  function Offered(s: State, context: Option<nat>): Option<(nat, nat)> {
    if context.Some? && context.value < |s.contexts| then
      var slots := s.contexts[context.value].slots;
      var k := FirstWhere(slots, true);
      if k < |slots| then Some((k, slots[k].value)) else None
    else None
  }

  /** `take_retained_span`: a kept box if a context is acquired and keeps one, else a new one. */
  function Take(s: State, context: Option<nat>, place: Place): (State, nat)
    requires CanAcquire(s, context)
  {
    match Offered(s, context)
    case Some((k, b)) =>
      var taken := PutSlot(s, context.value, k, None);
      (if b < |s.places| then Move(taken, b, place) else taken, b)
    case None => (Make(s, place), |s.places|)
  }

  function PutContent(s: State, b: nat, content: Content): State
    requires b < |s.boxes|
  {
    s.(boxes := s.boxes[b := content])
  }

  /** `return_retained_span`: cleared first, then kept in the first free slot or dropped. */
  function Return(s: State, c: nat, b: nat): State
    requires c < |s.contexts| && b < |s.boxes| && b < |s.places|
  {
    var cleared := PutContent(s, b, EMPTY);
    var k := FirstWhere(s.contexts[c].slots, false);
    if k < |s.contexts[c].slots| then Move(PutSlot(cleared, c, k, Some(b)), b, Kept(c, k))
    else Move(cleared, b, Dropped)
  }

  /** The box a callback may write to: in its hand, or of the span it guards. */
  function Target(s: State, pc: Pc): Option<nat> {
    match pc
    case Filling(_, box) => Some(box)
    case Editing(span) => if span in s.spans then s.spans[span] else None
    case _ => None
  }

  /** A write to the span's box, and to the span's own history. */
  function Written(content: Content, action: Action): Content {
    match action
    case Record(name, value) => content.(fields := SetField(content.fields, name, StoredValue(value)))
    case SetPoll(flow) => content.(poll := Some(flow))
    case QueueFlow(endpoint) => content.(pending := content.pending + [endpoint])
    case WriteFlows => content.(pending := [])
    case _ => content
  }

  function Told(story: Story, action: Action): Story {
    match action
    case Record(name, value) => story.(records := story.records + [(name, value)])
    case SetPoll(flow) => story.(poll := Some(flow))
    case QueueFlow(endpoint) => story.(pending := story.pending + [endpoint])
    case WriteFlows => story.(pending := [])
    case _ => story
  }

  predicate IsWrite(action: Action) {
    action.Record? || action.SetPoll? || action.QueueFlow? || action.WriteFlows?
  }

  // ------------------------------------------------------------ steps

  predicate Unguarded(s: State, span: nat) {
    forall b: nat :: b < |s.pcs| ==> s.pcs[b] != Editing(span)
  }

  predicate Enabled(s: State, l: Label) {
    && l.actor < |s.pcs|
    && var pc := s.pcs[l.actor];
       match l.action
       case NewContext => pc.Idle?
       case NewSpan(span, _) => pc.Idle? && span !in s.stories
       case Edit(span) => pc.Idle? && span in s.spans && Unguarded(s, span)
       case Close(span) => pc.Idle? && span in s.spans && Unguarded(s, span) && BoxFine(s, s.spans[span])
       case ExitThread(c) => pc.Idle? && c < |s.contexts| && s.contexts[c].borrower == None
       case Attach(context) => pc.Editing? && pc.span in s.spans && s.spans[pc.span] == None && CanAcquire(s, context)
       case SetPoll(_) => pc.Filling? && Writable(s, pc)
       case Record(_, _) => Writable(s, pc)
       case QueueFlow(_) => pc.Editing? && Writable(s, pc)
       case WriteFlows => pc.Editing? && Writable(s, pc)
       case Advance(context) => Steps(s, pc, context)
  }

  predicate BoxFine(s: State, box: Option<nat>) {
    box.Some? ==> box.value < |s.boxes| && box.value < |s.places|
  }

  predicate Writable(s: State, pc: Pc) {
    && Target(s, pc).Some? && Target(s, pc).value < |s.boxes|
    && (pc.Filling? || pc.Editing?) && pc.span in s.stories
  }

  predicate Steps(s: State, pc: Pc, context: Option<nat>) {
    match pc
    case Idle => false
    case Wanting(_) => CanAcquire(s, context)
    case Filling(_, box) => BoxFine(s, Some(box))
    case Editing(_) => true
    case Closing(_, _) => CanAcquire(s, context)
    case Returning(_, box, c) => c < |s.contexts| && BoxFine(s, Some(box))
    case Recycling(_, box) => CanAcquire(s, context) && BoxFine(s, Some(box))
    case Exiting(c, _) => c < |s.contexts|
  }

  function Apply(s: State, l: Label): State
    requires Enabled(s, l)
  {
    var a, pc := l.actor, s.pcs[l.actor];
    match l.action
    case NewContext => s.(contexts := s.contexts + [Context(seq(RETAINED, i => None), None)])
    case NewSpan(span, wants) => Begin(s, a, span, wants)
    case Edit(span) => Go(s, a, Editing(span))
    case Close(span) => Unlist(s, a, span)
    case ExitThread(c) => Go(Borrow(s, c, Some(a)), a, Exiting(c, 0))
    case Attach(context) =>
      var (taken, b) := Take(s, context, Live(pc.span));
      taken.(spans := taken.spans[pc.span := Some(b)])
    case Advance(context) => Step(s, a, pc, context)
    case _ => Write(s, pc, l.action)
  }

  /** A span is born; one that retains nothing is inserted at once. */
  function Begin(s: State, a: nat, span: nat, wants: bool): State
    requires a < |s.pcs|
  {
    var born := s.(stories := s.stories[span := BIRTH]);
    if wants then Go(born, a, Wanting(span)) else born.(spans := s.spans[span := None])
  }

  /** `on_close` removes the state, and with it any box. */
  function Unlist(s: State, a: nat, span: nat): State
    requires a < |s.pcs| && span in s.spans && BoxFine(s, s.spans[span])
  {
    var taken := s.(spans := s.spans - {span});
    match s.spans[span]
    case None => taken
    case Some(b) => Go(Move(taken, b, Hand(a)), a, Closing(span, b))
  }

  function Write(s: State, pc: Pc, action: Action): State
    requires Writable(s, pc)
  {
    var b := Target(s, pc).value;
    PutContent(s, b, Written(s.boxes[b], action)).(stories := s.stories[pc.span := Told(s.stories[pc.span], action)])
  }

  function Step(s: State, a: nat, pc: Pc, context: Option<nat>): State
    requires a < |s.pcs| && Steps(s, pc, context)
  {
    match pc
    case Wanting(span) =>
      var (taken, b) := Take(s, context, Hand(a));
      Go(taken, a, Filling(span, b))
    case Filling(span, b) => Go(Move(s.(spans := s.spans[span := Some(b)]), b, Live(span)), a, Idle)
    case Editing(_) => Go(s, a, Idle)
    case Closing(span, b) =>
      if context.Some? then Go(Borrow(s, context.value, Some(a)), a, Returning(span, b, context.value))
      else Go(s, a, Recycling(span, b))
    case Returning(_, b, c) => Go(Borrow(Return(s, c, b), c, None), a, Idle)
    case Recycling(span, b) =>
      if context.Some? then Go(Borrow(s, context.value, Some(a)), a, Returning(span, b, context.value))
      else Go(Move(s, b, Dropped), a, Idle)
    case Exiting(c, k) => DropSlot(s, a, c, k)
  }

  /** A context that is destroyed drops the boxes it keeps. */
  function DropSlot(s: State, a: nat, c: nat, k: nat): State
    requires a < |s.pcs| && c < |s.contexts|
  {
    if k >= |s.contexts[c].slots| then Go(s, a, Idle)
    else
      match s.contexts[c].slots[k]
      case None => Go(s, a, Exiting(c, k + 1))
      case Some(b) =>
        var emptied := PutSlot(s, c, k, None);
        Go(if b < |s.places| then Move(emptied, b, Dropped) else emptied, a, Exiting(c, k + 1))
  }

  function Run(s: State, labels: seq<Label>): State
    decreases |labels|
  {
    if labels == [] || !Enabled(s, labels[0]) then s else Run(Apply(s, labels[0]), labels[1..])
  }

  // ------------------------------------------------------------ the invariant

  function InHand(pc: Pc): Option<nat> {
    match pc
    case Filling(_, box) => Some(box)
    case Closing(_, box) => Some(box)
    case Returning(_, box, _) => Some(box)
    case Recycling(_, box) => Some(box)
    case _ => None
  }

  function KeptAt(contexts: seq<Context>, c: nat, k: nat): Option<nat> {
    if c < |contexts| && k < |contexts[c].slots| then contexts[c].slots[k] else None
  }

  /** What is really there: the span's field, the callback's variable, the slot. */
  predicate Holds(s: State, place: Place, b: nat) {
    match place
    case Live(span) => span in s.spans && s.spans[span] == Some(b)
    case Hand(a) => a < |s.pcs| && InHand(s.pcs[a]) == Some(b)
    case Kept(c, k) => KeptAt(s.contexts, c, k) == Some(b)
    case Dropped => b < |s.places| && s.places[b] == Dropped
  }

  ghost predicate PlacesOk(s: State) {
    && |s.boxes| == |s.places|
    && forall place: Place, b: nat :: Holds(s, place, b) <==> b < |s.places| && s.places[b] == place
  }

  /** The box holds this span's own records, endpoints and poll flow; no box, none of them. */
  ghost predicate Tells(boxes: seq<Content>, box: Option<nat>, story: Story) {
    match box
    case None => story == BIRTH
    case Some(b) => b < |boxes| && boxes[b] == Content(Folded(StoredAll(story.records)), story.pending, story.poll)
  }

  /** The span a callback is creating or closing. */
  function Busy(pc: Pc): Option<nat> {
    match pc
    case Wanting(span) => Some(span)
    case Filling(span, _) => Some(span)
    case Closing(span, _) => Some(span)
    case Returning(span, _, _) => Some(span)
    case Recycling(span, _) => Some(span)
    case _ => None
  }

  ghost predicate LiveTold(s: State) {
    forall span :: span in s.spans ==> span in s.stories && Tells(s.boxes, s.spans[span], s.stories[span])
  }

  ghost predicate HandsTold(s: State) {
    forall a: nat :: a < |s.pcs| && Busy(s.pcs[a]).Some? ==>
      var span := Busy(s.pcs[a]).value;
      span in s.stories && Tells(s.boxes, InHand(s.pcs[a]), s.stories[span])
  }

  /** A span being created or closed is not live, and is so by one callback. */
  ghost predicate BusyOk(s: State) {
    && (forall a: nat :: a < |s.pcs| && Busy(s.pcs[a]).Some? ==> Busy(s.pcs[a]).value !in s.spans)
    && (forall a: nat, b: nat :: a < |s.pcs| && b < |s.pcs| && a != b && Busy(s.pcs[a]).Some? ==>
        Busy(s.pcs[a]) != Busy(s.pcs[b]))
  }

  ghost predicate KeptEmpty(s: State) {
    forall c: nat, k: nat :: KeptAt(s.contexts, c, k).Some? ==>
      KeptAt(s.contexts, c, k).value < |s.boxes| && s.boxes[KeptAt(s.contexts, c, k).value] == EMPTY
  }

  ghost predicate Inv(s: State) {
    PlacesOk(s) && LiveTold(s) && HandsTold(s) && BusyOk(s) && KeptEmpty(s)
  }

  // ------------------------------------------------------------ moving one box

  ghost predicate Moved(s: State, s': State, b: nat, to: Place) {
    && b < |s.places| && s'.places == s.places[b := to] && |s'.boxes| == |s.boxes|
    && forall place: Place, x: nat :: Holds(s', place, x) <==> if x == b then place == to else Holds(s, place, x)
  }

  ghost predicate Unmoved(s: State, s': State) {
    && s'.places == s.places && |s'.boxes| == |s.boxes|
    && forall place: Place, x: nat :: Holds(s', place, x) <==> Holds(s, place, x)
  }

  ghost predicate Made(s: State, s': State, to: Place) {
    && s'.places == s.places + [to] && |s'.boxes| == |s.boxes| + 1
    && forall place: Place, x: nat :: Holds(s', place, x) <==> Holds(s, place, x) || (x == |s.places| && place == to)
  }

  lemma MovedPlaces(s: State, s': State, b: nat, to: Place)
    requires PlacesOk(s) && Moved(s, s', b, to)
    ensures PlacesOk(s')
  {
  }

  lemma MadePlaces(s: State, s': State, to: Place)
    requires PlacesOk(s) && Made(s, s', to)
    ensures PlacesOk(s')
  {
  }

  lemma OnlyThere(s: State, place: Place, b: nat)
    requires PlacesOk(s) && Holds(s, place, b)
    ensures b < |s.places| && b < |s.boxes| && s.places[b] == place
    ensures forall other: Place :: Holds(s, other, b) <==> other == place
  {
  }

  lemma MovedFromTo(s: State, s': State, b: nat, from: Place, to: Place)
    requires PlacesOk(s) && Holds(s, from, b) && s'.places == s.places[b := to] && |s'.boxes| == |s.boxes| && from != to
    requires from != Dropped
    requires forall place: Place, x: nat :: place != from && place != to && place != Dropped ==>
        (Holds(s', place, x) <==> Holds(s, place, x))
    requires forall x: nat :: Holds(s', from, x) <==> Holds(s, from, x) && x != b
    requires forall x: nat :: to != Dropped ==> (Holds(s', to, x) <==> Holds(s, to, x) || x == b)
    ensures Moved(s, s', b, to)
  {
    OnlyThere(s, from, b);
    forall place: Place, x: nat
      ensures Holds(s', place, x) <==> if x == b then place == to else Holds(s, place, x)
    {
      assert Holds(s, place, b) <==> place == from;
    }
  }

  lemma GoHolds(s: State, a: nat, pc: Pc)
    requires a < |s.pcs|
    ensures forall place: Place, x: nat ::
              Holds(Go(s, a, pc), place, x) <==> if place == Hand(a) then InHand(pc) == Some(x) else Holds(s, place, x)
  {
  }

  lemma BorrowHolds(s: State, c: nat, borrower: Option<nat>)
    requires c < |s.contexts|
    ensures forall place: Place, x: nat :: Holds(Borrow(s, c, borrower), place, x) <==> Holds(s, place, x)
    ensures forall d: nat, k: nat :: KeptAt(Borrow(s, c, borrower).contexts, d, k) == KeptAt(s.contexts, d, k)
  {
  }

  lemma PutSlotHolds(s: State, c: nat, k: nat, box: Option<nat>)
    requires c < |s.contexts| && k < |s.contexts[c].slots|
    ensures forall d: nat, j: nat ::
              KeptAt(PutSlot(s, c, k, box).contexts, d, j) == if d == c && j == k then box else KeptAt(s.contexts, d, j)
    ensures forall place: Place, x: nat ::
              Holds(PutSlot(s, c, k, box), place, x)
              <==> if place == Kept(c, k) then box == Some(x) else Holds(s, place, x)
  {
    forall d: nat, j: nat
      ensures KeptAt(PutSlot(s, c, k, box).contexts, d, j) == if d == c && j == k then box else KeptAt(s.contexts, d, j)
    {
    }
  }

  // ------------------------------------------------------------ contents

  /** Only box `b` may have changed. */
  ghost predicate OthersSame(s: State, s': State, b: nat) {
    |s.boxes| <= |s'.boxes| && forall x: nat :: x < |s.boxes| && x != b ==> s'.boxes[x] == s.boxes[x]
  }

  /** All contents are as before; there may be a new, empty box. */
  ghost predicate AllSame(s: State, s': State) {
    |s.boxes| <= |s'.boxes| && forall x: nat :: x < |s.boxes| ==> s'.boxes[x] == s.boxes[x]
  }

  /** What every callback but `a`, and every span but one, sees unchanged. */
  ghost predicate Bystanders(s: State, s': State, a: nat, span: nat) {
    && a < |s.pcs| == |s'.pcs| && s'.pcs == s.pcs[a := s'.pcs[a]]
    && (forall other :: other in s.stories && other != span ==>
        other in s'.stories && s'.stories[other] == s.stories[other])
    && (forall other :: other != span ==>
        (other in s'.spans <==> other in s.spans) && (other in s.spans ==> s'.spans[other] == s.spans[other]))
  }

  lemma LiveToldKept(s: State, s': State, a: nat, span: nat)
    requires LiveTold(s) && Bystanders(s, s', a, span) && AllSame(s, s')
    requires span in s'.spans ==> span in s'.stories && Tells(s'.boxes, s'.spans[span], s'.stories[span])
    ensures LiveTold(s')
  {
  }

  lemma HandsToldKept(s: State, s': State, a: nat, span: nat)
    requires HandsTold(s) && BusyOk(s) && Bystanders(s, s', a, span) && AllSame(s, s')
    requires forall b: nat :: b < |s.pcs| && b != a ==> Busy(s.pcs[b]) != Some(span)
    requires Busy(s'.pcs[a]).Some? ==>
               Busy(s'.pcs[a]).value in s'.stories
               && Tells(s'.boxes, InHand(s'.pcs[a]), s'.stories[Busy(s'.pcs[a]).value])
    ensures HandsTold(s')
  {
    forall b: nat | b < |s'.pcs| && Busy(s'.pcs[b]).Some?
      ensures Busy(s'.pcs[b]).value in s'.stories
      ensures Tells(s'.boxes, InHand(s'.pcs[b]), s'.stories[Busy(s'.pcs[b]).value])
    {
      if b != a {
        assert Busy(s.pcs[b]).Some?;
      }
    }
  }

  lemma BusyKept(s: State, s': State, a: nat, span: nat)
    requires BusyOk(s) && Bystanders(s, s', a, span)
    requires forall b: nat :: b < |s.pcs| && b != a ==> Busy(s.pcs[b]) != Some(span)
    requires Busy(s'.pcs[a]).Some? ==> Busy(s'.pcs[a]).value == span && span !in s'.spans
    ensures BusyOk(s')
  {
  }

  lemma KeptEmptyKept(s: State, s': State)
    requires KeptEmpty(s) && AllSame(s, s')
    requires forall c: nat, k: nat :: KeptAt(s'.contexts, c, k).Some? ==>
        KeptAt(s'.contexts, c, k) == KeptAt(s.contexts, c, k)
    ensures KeptEmpty(s')
  {
  }

  /** Nobody else is busy with a live span, or with one's own. */
  lemma NotBusy(s: State, a: nat, span: nat)
    requires BusyOk(s) && (span in s.spans || (a < |s.pcs| && Busy(s.pcs[a]) == Some(span)))
    ensures forall b: nat :: b < |s.pcs| && b != a ==> Busy(s.pcs[b]) != Some(span)
  {
  }

  // ------------------------------------------------------------ taking

  /** A taken box is empty, and the only thing that moves. */
  lemma TakeMoves(s: State, context: Option<nat>, place: Place)
    requires PlacesOk(s) && KeptEmpty(s) && CanAcquire(s, context)
    ensures var (s', b) := Take(s, context, place);
            && s'.pcs == s.pcs && s'.spans == s.spans && s'.stories == s.stories && AllSame(s, s')
            && b < |s'.boxes| == |s'.places| && s'.boxes[b] == EMPTY && s'.places[b] == place
            && (if Offered(s, context).Some? then s'.places == s.places[b := place] && b < |s.places|
                && Holds(s, Kept(context.value, Offered(s, context).value.0), b)
                else s'.places == s.places + [place] && b == |s.places|)
            && (forall c: nat, k: nat :: KeptAt(s'.contexts, c, k).Some? ==>
                KeptAt(s'.contexts, c, k) == KeptAt(s.contexts, c, k))
  {
    var offered := Offered(s, context);
    if offered.Some? {
      var (k, b) := offered.value;
      var c := context.value;
      assert KeptAt(s.contexts, c, k) == Some(b);
      OnlyThere(s, Kept(c, k), b);
      PutSlotHolds(s, c, k, None);
    }
  }

  /** What a take leaves where, but for the place the box goes to. */
  lemma TakeHolds(s: State, context: Option<nat>, to: Place)
    requires PlacesOk(s) && KeptEmpty(s) && CanAcquire(s, context) && !to.Kept? && to != Dropped
    ensures var (s', b) := Take(s, context, to);
            forall place: Place, x: nat :: place != to ==>
              (Holds(s', place, x) <==> Holds(s, place, x) && !(place.Kept? && x == b))
  {
    var (s', b) := Take(s, context, to);
    var offered := Offered(s, context);
    if offered.Some? {
      var k, c := offered.value.0, context.value;
      assert Holds(s, Kept(c, k), b);
      OnlyThere(s, Kept(c, k), b);
      PutSlotHolds(s, c, k, None);
      forall place: Place, x: nat | place != to
        ensures Holds(s', place, x) <==> Holds(s, place, x) && !(place.Kept? && x == b)
      {
        assert Holds(s, place, b) <==> place == Kept(c, k);
      }
    } else {
      forall place: Place, x: nat | place != to
        ensures Holds(s', place, x) <==> Holds(s, place, x) && !(place.Kept? && x == b)
      {
        assert Holds(s, place, x) ==> x < |s.places|;
      }
    }
  }

  lemma TakenPlaces(s: State, s': State, context: Option<nat>, to: Place)
    requires PlacesOk(s) && KeptEmpty(s) && CanAcquire(s, context) && !to.Kept? && to != Dropped
    requires forall x: nat :: !Holds(s, to, x)
    requires var (taken, b) := Take(s, context, to);
             && s'.places == taken.places && s'.boxes == taken.boxes
             && (forall place: Place, x: nat :: place != to ==> (Holds(s', place, x) <==> Holds(taken, place, x)))
             && (forall x: nat :: Holds(s', to, x) <==> x == b)
    ensures PlacesOk(s')
  {
    var (taken, b) := Take(s, context, to);
    TakeMoves(s, context, to);
    TakeHolds(s, context, to);
    var offered := Offered(s, context);
    if offered.Some? {
      var from := Kept(context.value, offered.value.0);
      OnlyThere(s, from, b);
      forall place: Place, x: nat
        ensures Holds(s', place, x) <==> if x == b then place == to else Holds(s, place, x)
      {
        assert Holds(s, place, b) <==> place == from;
      }
      MovedPlaces(s, s', b, to);
    } else {
      forall place: Place, x: nat
        ensures Holds(s', place, x) <==> Holds(s, place, x) || (x == |s.places| && place == to)
      {
        assert Holds(s, place, x) ==> x < |s.places|;
      }
      MadePlaces(s, s', to);
    }
  }

  lemma WantingKeeps(s: State, a: nat, span: nat, context: Option<nat>)
    requires Inv(s) && a < |s.pcs| && s.pcs[a] == Wanting(span) && CanAcquire(s, context)
    ensures Inv(Step(s, a, s.pcs[a], context))
  {
    var (taken, b) := Take(s, context, Hand(a));
    var s' := Go(taken, a, Filling(span, b));
    TakeMoves(s, context, Hand(a));
    GoHolds(taken, a, Filling(span, b));
    TakenPlaces(s, s', context, Hand(a));
    assert Busy(s.pcs[a]) == Some(span);
    NotBusy(s, a, span);
    assert StoredAll([]) == [] && Folded([]) == [];
    LiveToldKept(s, s', a, span);
    HandsToldKept(s, s', a, span);
    BusyKept(s, s', a, span);
    KeptEmptyKept(s, s');
  }

  lemma AttachKeeps(s: State, a: nat, span: nat, context: Option<nat>)
    requires Inv(s) && a < |s.pcs| && s.pcs[a] == Editing(span) && span in s.spans && s.spans[span] == None
    requires CanAcquire(s, context)
    ensures Inv(Apply(s, Label(a, Attach(context))))
  {
    var (taken, b) := Take(s, context, Live(span));
    var s' := taken.(spans := taken.spans[span := Some(b)]);
    TakeMoves(s, context, Live(span));
    TakenPlaces(s, s', context, Live(span));
    NotBusy(s, a, span);
    assert StoredAll([]) == [] && Folded([]) == [];
    LiveToldKept(s, s', a, span);
    HandsToldKept(s, s', a, span);
    BusyKept(s, s', a, span);
    KeptEmptyKept(s, s');
  }

  // ------------------------------------------------------------ writing

  /** The fold of the records goes on with the next record. */
  lemma FoldedPush(records: seq<Stored>, record: Stored)
    ensures SetField(Folded(records), record.name, record.value) == Folded(records + [record])
  {
    assert Front(records + [record]) == records && Last(records + [record]) == record;
    SetInFold(records + [record]);
  }

  lemma WrittenTells(content: Content, story: Story, action: Action)
    requires content == Content(Folded(StoredAll(story.records)), story.pending, story.poll) && IsWrite(action)
    ensures var story' := Told(story, action);
            Written(content, action) == Content(Folded(StoredAll(story'.records)), story'.pending, story'.poll)
  {
    if action.Record? {
      var stored := Stored(action.name, StoredValue(action.value));
      assert StoredAll(story.records + [(action.name, action.value)]) == StoredAll(story.records) + [stored];
      FoldedPush(StoredAll(story.records), stored);
    }
  }

  /** Where a callback may write, it is to its own span's box and nobody else's. */
  lemma WriteTarget(s: State, a: nat, span: nat)
    requires Inv(s) && a < |s.pcs| && Writable(s, s.pcs[a]) && span == s.pcs[a].span
    ensures var b := Target(s, s.pcs[a]).value;
            && s.boxes[b] == Content(Folded(StoredAll(s.stories[span].records)), s.stories[span].pending,
                                     s.stories[span].poll)
            && (forall other :: other in s.spans && other != span ==> s.spans[other] != Some(b))
            && (forall c: nat :: c < |s.pcs| && Busy(s.pcs[c]) != Some(span) ==> InHand(s.pcs[c]) != Some(b))
            && (forall c: nat, k: nat :: KeptAt(s.contexts, c, k) != Some(b))
  {
    var b := Target(s, s.pcs[a]).value;
    var here := if s.pcs[a].Filling? then Hand(a) else Live(span);
    assert Busy(s.pcs[a]) == (if s.pcs[a].Filling? then Some(span) else None);
    assert Holds(s, here, b);
    OnlyThere(s, here, b);
    forall other | other in s.spans && other != span
      ensures s.spans[other] != Some(b)
    {
      assert Holds(s, Live(other), b) <==> Live(other) == here;
    }
    forall c: nat | c < |s.pcs| && Busy(s.pcs[c]) != Some(span)
      ensures InHand(s.pcs[c]) != Some(b)
    {
      assert Holds(s, Hand(c), b) <==> Hand(c) == here;
    }
    forall c: nat, k: nat
      ensures KeptAt(s.contexts, c, k) != Some(b)
    {
      assert Holds(s, Kept(c, k), b) <==> Kept(c, k) == here;
    }
  }

  lemma WriteKeeps(s: State, a: nat, action: Action)
    requires Inv(s) && a < |s.pcs| && Writable(s, s.pcs[a]) && IsWrite(action)
    ensures Inv(Write(s, s.pcs[a], action))
  {
    var span, b := s.pcs[a].span, Target(s, s.pcs[a]).value;
    var s' := Write(s, s.pcs[a], action);
    WriteTarget(s, a, span);
    WrittenTells(s.boxes[b], s.stories[span], action);
    assert forall place: Place, x: nat :: Holds(s', place, x) <==> Holds(s, place, x);
    WrittenLive(s, s', a, span, b);
    WrittenHands(s, s', a, span, b);
  }

  ghost predicate Wrote(s: State, s': State, span: nat, b: nat) {
    && s'.pcs == s.pcs && s'.spans == s.spans && OthersSame(s, s', b) && b < |s'.boxes|
    && span in s.stories && span in s'.stories && s'.stories == s.stories[span := s'.stories[span]]
    && Tells(s'.boxes, Some(b), s'.stories[span])
  }

  lemma WrittenLive(s: State, s': State, a: nat, span: nat, b: nat)
    requires LiveTold(s) && span in s'.stories && Wrote(s, s', span, b)
    requires forall other :: other in s.spans && other != span ==> s.spans[other] != Some(b)
    requires span in s.spans ==> s.spans[span] == Some(b)
    ensures LiveTold(s')
  {
  }

  lemma WrittenHands(s: State, s': State, a: nat, span: nat, b: nat)
    requires HandsTold(s) && BusyOk(s) && span in s'.stories && Wrote(s, s', span, b)
    requires forall c: nat :: c < |s.pcs| && Busy(s.pcs[c]) != Some(span) ==> InHand(s.pcs[c]) != Some(b)
    requires forall c: nat :: c < |s.pcs| && Busy(s.pcs[c]) == Some(span) ==> InHand(s.pcs[c]) == Some(b)
    ensures HandsTold(s')
  {
    forall c: nat | c < |s'.pcs| && Busy(s'.pcs[c]).Some?
      ensures Busy(s'.pcs[c]).value in s'.stories
      ensures Tells(s'.boxes, InHand(s'.pcs[c]), s'.stories[Busy(s'.pcs[c]).value])
    {
      assert Tells(s.boxes, InHand(s.pcs[c]), s.stories[Busy(s.pcs[c]).value]);
    }
  }

  // ------------------------------------------------------------ inserting, closing, giving back

  lemma FillingKeeps(s: State, a: nat, span: nat, b: nat, context: Option<nat>)
    requires Inv(s) && a < |s.pcs| && s.pcs[a] == Filling(span, b)
    ensures BoxFine(s, Some(b)) && Inv(Step(s, a, s.pcs[a], context))
  {
    assert Busy(s.pcs[a]) == Some(span) && Holds(s, Hand(a), b);
    OnlyThere(s, Hand(a), b);
    NotBusy(s, a, span);
    var inserted := s.(spans := s.spans[span := Some(b)]);
    var s' := Go(Move(inserted, b, Live(span)), a, Idle);
    GoHolds(Move(inserted, b, Live(span)), a, Idle);
    MovedFromTo(s, s', b, Hand(a), Live(span));
    MovedPlaces(s, s', b, Live(span));
    LiveToldKept(s, s', a, span);
    HandsToldKept(s, s', a, span);
    BusyKept(s, s', a, span);
    KeptEmptyKept(s, s');
  }

  lemma UnlistKeeps(s: State, a: nat, span: nat)
    requires Inv(s) && a < |s.pcs| && s.pcs[a] == Idle && span in s.spans && BoxFine(s, s.spans[span])
    ensures Inv(Unlist(s, a, span))
  {
    var s' := Unlist(s, a, span);
    NotBusy(s, a, span);
    if s.spans[span].Some? {
      var b := s.spans[span].value;
      var taken := s.(spans := s.spans - {span});
      assert Holds(s, Live(span), b);
      OnlyThere(s, Live(span), b);
      GoHolds(Move(taken, b, Hand(a)), a, Closing(span, b));
      MovedFromTo(s, s', b, Live(span), Hand(a));
      MovedPlaces(s, s', b, Hand(a));
    } else {
      assert forall place: Place, x: nat :: Holds(s', place, x) <==> Holds(s, place, x);
    }
    assert Tells(s.boxes, s.spans[span], s.stories[span]);
    LiveToldKept(s, s', a, span);
    HandsToldKept(s, s', a, span);
    BusyKept(s, s', a, span);
    KeptEmptyKept(s, s');
  }

  /** A closing callback acquires a context, or finds none to acquire. */
  lemma PassKeeps(s: State, s1: State, a: nat, pc: Pc)
    requires Inv(s) && a < |s.pcs| && Busy(pc) == Busy(s.pcs[a]) && InHand(pc) == InHand(s.pcs[a])
    requires s1 == s || exists c: nat, borrower :: c < |s.contexts| && s1 == Borrow(s, c, borrower)
    ensures Inv(Go(s1, a, pc))
  {
    var s' := Go(s1, a, pc);
    if s1 != s {
      var c: nat, borrower :| c < |s.contexts| && s1 == Borrow(s, c, borrower);
      BorrowHolds(s, c, borrower);
    }
    GoHolds(s1, a, pc);
    assert forall place: Place, x: nat :: Holds(s', place, x) <==> Holds(s, place, x);
    assert forall c: nat :: c < |s.pcs| ==> Busy(s'.pcs[c]) == Busy(s.pcs[c]) && InHand(s'.pcs[c]) == InHand(s.pcs[c]);
    KeptEmptyKept(s, s');
    PassTold(s, s');
  }

  lemma PassTold(s: State, s': State)
    requires LiveTold(s) && HandsTold(s) && BusyOk(s) && |s'.pcs| == |s.pcs|
    requires s'.spans == s.spans && s'.stories == s.stories && s'.boxes == s.boxes
    requires forall c: nat :: c < |s.pcs| ==> Busy(s'.pcs[c]) == Busy(s.pcs[c]) && InHand(s'.pcs[c]) == InHand(s.pcs[c])
    ensures LiveTold(s') && HandsTold(s') && BusyOk(s')
  {
  }

  /** A box that is dropped, by a callback or with its context. */
  lemma DropPlaces(s: State, a: nat, b: nat)
    requires PlacesOk(s) && a < |s.pcs| && InHand(s.pcs[a]) == Some(b)
    ensures b < |s.places| && PlacesOk(Go(Move(s, b, Dropped), a, Idle))
  {
    assert Holds(s, Hand(a), b);
    OnlyThere(s, Hand(a), b);
    GoHolds(Move(s, b, Dropped), a, Idle);
    MovedFromTo(s, Go(Move(s, b, Dropped), a, Idle), b, Hand(a), Dropped);
    MovedPlaces(s, Go(Move(s, b, Dropped), a, Idle), b, Dropped);
  }

  /** A callback is done with a span that is not live, and lets go of its box. */
  lemma DoneTold(s: State, s': State, a: nat, b: nat)
    requires Inv(s) && a < |s.pcs| && InHand(s.pcs[a]) == Some(b) && s'.pcs == s.pcs[a := Idle]
    requires s'.spans == s.spans && s'.stories == s.stories && OthersSame(s, s', b) && |s'.boxes| == |s.boxes|
    ensures LiveTold(s') && HandsTold(s') && BusyOk(s')
  {
    assert Holds(s, Hand(a), b);
    OnlyThere(s, Hand(a), b);
    forall span | span in s'.spans
      ensures span in s'.stories && Tells(s'.boxes, s'.spans[span], s'.stories[span])
    {
      assert Tells(s.boxes, s.spans[span], s.stories[span]);
      assert !Holds(s, Live(span), b);
    }
    forall c: nat | c < |s'.pcs| && Busy(s'.pcs[c]).Some?
      ensures Busy(s'.pcs[c]).value in s'.stories
      ensures Tells(s'.boxes, InHand(s'.pcs[c]), s'.stories[Busy(s'.pcs[c]).value])
    {
      assert Tells(s.boxes, InHand(s.pcs[c]), s.stories[Busy(s.pcs[c]).value]);
      assert Holds(s, Hand(c), b) <==> c == a;
    }
  }

  lemma DropKeeps(s: State, a: nat, b: nat)
    requires Inv(s) && a < |s.pcs| && InHand(s.pcs[a]) == Some(b)
    ensures b < |s.places| && Inv(Go(Move(s, b, Dropped), a, Idle))
  {
    DropPlaces(s, a, b);
    DoneTold(s, Go(Move(s, b, Dropped), a, Idle), a, b);
    KeptEmptyKept(s, Go(Move(s, b, Dropped), a, Idle));
  }

  /** A box given back is empty before any other span can get it. */
  lemma ReturnPlaces(s: State, a: nat, c: nat, b: nat)
    requires PlacesOk(s) && KeptEmpty(s) && a < |s.pcs| && InHand(s.pcs[a]) == Some(b) && c < |s.contexts|
    ensures b < |s.boxes| && b < |s.places|
    ensures var s' := Go(Borrow(Return(s, c, b), c, None), a, Idle);
            PlacesOk(s') && KeptEmpty(s')
  {
    assert Holds(s, Hand(a), b);
    OnlyThere(s, Hand(a), b);
    var k := FirstWhere(s.contexts[c].slots, false);
    if k < |s.contexts[c].slots| {
      ReturnKept(s, a, c, b, k);
    } else {
      ReturnDropped(s, a, c, b);
    }
  }

  lemma ReturnKept(s: State, a: nat, c: nat, b: nat, k: nat)
    requires PlacesOk(s) && KeptEmpty(s) && a < |s.pcs| && InHand(s.pcs[a]) == Some(b) && c < |s.contexts|
    requires b < |s.boxes|
    requires k == FirstWhere(s.contexts[c].slots, false) && k < |s.contexts[c].slots| && b < |s.places|
    requires Holds(s, Hand(a), b)
    ensures var s' := Go(Borrow(Return(s, c, b), c, None), a, Idle);
            PlacesOk(s') && KeptEmpty(s')
  {
    var cleared := PutContent(s, b, EMPTY);
    var kept := Move(PutSlot(cleared, c, k, Some(b)), b, Kept(c, k));
    var s' := Go(Borrow(kept, c, None), a, Idle);
    assert forall place: Place, x: nat :: Holds(cleared, place, x) <==> Holds(s, place, x);
    PutSlotHolds(cleared, c, k, Some(b));
    BorrowHolds(kept, c, None);
    GoHolds(Borrow(kept, c, None), a, Idle);
    assert forall x: nat :: !Holds(s, Kept(c, k), x);
    MovedFromTo(s, s', b, Hand(a), Kept(c, k));
    MovedPlaces(s, s', b, Kept(c, k));
    forall d: nat, j: nat | KeptAt(s'.contexts, d, j).Some?
      ensures KeptAt(s'.contexts, d, j).value < |s'.boxes| && s'.boxes[KeptAt(s'.contexts, d, j).value] == EMPTY
    {
      assert KeptAt(s'.contexts, d, j) == if d == c && j == k then Some(b) else KeptAt(s.contexts, d, j);
    }
  }

  lemma ReturnDropped(s: State, a: nat, c: nat, b: nat)
    requires PlacesOk(s) && KeptEmpty(s) && a < |s.pcs| && InHand(s.pcs[a]) == Some(b) && c < |s.contexts|
    requires b < |s.boxes|
    requires FirstWhere(s.contexts[c].slots, false) == |s.contexts[c].slots| && b < |s.places| && Holds(s, Hand(a), b)
    ensures var s' := Go(Borrow(Return(s, c, b), c, None), a, Idle);
            PlacesOk(s') && KeptEmpty(s')
  {
    var dropped := Move(PutContent(s, b, EMPTY), b, Dropped);
    var s' := Go(Borrow(dropped, c, None), a, Idle);
    BorrowHolds(dropped, c, None);
    GoHolds(Borrow(dropped, c, None), a, Idle);
    MovedFromTo(s, s', b, Hand(a), Dropped);
    MovedPlaces(s, s', b, Dropped);
    forall d: nat, j: nat | KeptAt(s'.contexts, d, j).Some?
      ensures KeptAt(s'.contexts, d, j).value < |s'.boxes| && s'.boxes[KeptAt(s'.contexts, d, j).value] == EMPTY
    {
      assert KeptAt(s'.contexts, d, j) == KeptAt(s.contexts, d, j);
    }
  }

  lemma ReturnKeeps(s: State, a: nat, c: nat, b: nat)
    requires Inv(s) && a < |s.pcs| && InHand(s.pcs[a]) == Some(b) && c < |s.contexts|
    ensures b < |s.boxes| && b < |s.places| && Inv(Go(Borrow(Return(s, c, b), c, None), a, Idle))
  {
    ReturnPlaces(s, a, c, b);
    DoneTold(s, Go(Borrow(Return(s, c, b), c, None), a, Idle), a, b);
  }

  lemma ExitingKeeps(s: State, a: nat, c: nat, k: nat)
    requires Inv(s) && a < |s.pcs| && s.pcs[a] == Exiting(c, k) && c < |s.contexts|
    ensures Inv(DropSlot(s, a, c, k))
  {
    var s' := DropSlot(s, a, c, k);
    if k < |s.contexts[c].slots| && s.contexts[c].slots[k].Some? {
      var b := s.contexts[c].slots[k].value;
      var emptied := PutSlot(s, c, k, None);
      assert Holds(s, Kept(c, k), b);
      OnlyThere(s, Kept(c, k), b);
      PutSlotHolds(s, c, k, None);
      GoHolds(Move(emptied, b, Dropped), a, Exiting(c, k + 1));
      MovedFromTo(s, s', b, Kept(c, k), Dropped);
      MovedPlaces(s, s', b, Dropped);
    } else {
      GoHolds(s, a, s'.pcs[a]);
      assert forall place: Place, x: nat :: Holds(s', place, x) <==> Holds(s, place, x);
    }
    assert forall d: nat :: d < |s.pcs| ==> Busy(s'.pcs[d]) == Busy(s.pcs[d]) && InHand(s'.pcs[d]) == InHand(s.pcs[d]);
    PassTold(s, s');
    KeptEmptyKept(s, s');
  }

  lemma BeginKeeps(s: State, a: nat, span: nat, wants: bool)
    requires Inv(s) && a < |s.pcs| && s.pcs[a] == Idle && span !in s.stories
    ensures Inv(Begin(s, a, span, wants))
  {
    var s' := Begin(s, a, span, wants);
    assert span !in s.spans;
    assert forall b: nat :: b < |s.pcs| && Busy(s.pcs[b]).Some? ==> Busy(s.pcs[b]).value in s.stories;
    if wants {
      GoHolds(s, a, Wanting(span));
    }
    assert forall place: Place, x: nat :: Holds(s', place, x) <==> Holds(s, place, x);
    assert StoredAll([]) == [] && Folded([]) == [];
    KeptEmptyKept(s, s');
    BornTold(s, s', a, span);
  }

  lemma BornTold(s: State, s': State, a: nat, span: nat)
    requires LiveTold(s) && HandsTold(s) && BusyOk(s) && span !in s.stories && span !in s.spans && s'.boxes == s.boxes
    requires a < |s.pcs| && s.pcs[a] == Idle && s'.stories == s.stories[span := BIRTH]
    requires (s'.pcs == s.pcs[a := Wanting(span)] && s'.spans == s.spans)
             || (s'.pcs == s.pcs && s'.spans == s.spans[span := None])
    requires forall b: nat :: b < |s.pcs| && Busy(s.pcs[b]).Some? ==> Busy(s.pcs[b]).value in s.stories
    ensures LiveTold(s') && BusyOk(s')
    ensures forall b: nat :: b < |s'.pcs| && b != a && Busy(s'.pcs[b]).Some? ==>
              Busy(s'.pcs[b]).value in s'.stories
              && Tells(s'.boxes, InHand(s'.pcs[b]), s'.stories[Busy(s'.pcs[b]).value])
    ensures HandsTold(s')
  {
    forall b: nat | b < |s'.pcs| && Busy(s'.pcs[b]).Some?
      ensures Busy(s'.pcs[b]).value in s'.stories
      ensures Tells(s'.boxes, InHand(s'.pcs[b]), s'.stories[Busy(s'.pcs[b]).value])
    {
      if s'.pcs[b] == s.pcs[b] {
        assert Tells(s.boxes, InHand(s.pcs[b]), s.stories[Busy(s.pcs[b]).value]);
      }
    }
  }

  // ------------------------------------------------------------ every step

  lemma ClosingKeeps(s: State, a: nat, context: Option<nat>)
    requires Inv(s) && a < |s.pcs| && (s.pcs[a].Closing? || s.pcs[a].Recycling?) && Steps(s, s.pcs[a], context)
    ensures Inv(Step(s, a, s.pcs[a], context))
  {
    var pc := s.pcs[a];
    if context.Some? {
      PassKeeps(s, Borrow(s, context.value, Some(a)), a, Returning(pc.span, pc.box, context.value));
    } else if pc.Closing? {
      PassKeeps(s, s, a, Recycling(pc.span, pc.box));
    } else {
      DropKeeps(s, a, pc.box);
    }
  }

  lemma AdvanceKeeps(s: State, a: nat, context: Option<nat>)
    requires Inv(s) && a < |s.pcs| && Steps(s, s.pcs[a], context)
    ensures Inv(Step(s, a, s.pcs[a], context))
  {
    match s.pcs[a]
    case Wanting(span) => WantingKeeps(s, a, span, context);
    case Filling(span, b) => FillingKeeps(s, a, span, b, context);
    case Editing(_) => PassKeeps(s, s, a, Idle);
    case Closing(_, _) => ClosingKeeps(s, a, context);
    case Returning(_, b, c) => ReturnKeeps(s, a, c, b);
    case Recycling(_, _) => ClosingKeeps(s, a, context);
    case Exiting(c, k) => ExitingKeeps(s, a, c, k);
  }

  lemma NewContextKeeps(s: State, l: Label)
    requires Inv(s) && Enabled(s, l) && l.action.NewContext?
    ensures Inv(Apply(s, l))
  {
    var s' := Apply(s, l);
    assert forall c: nat, k: nat :: KeptAt(s'.contexts, c, k) == KeptAt(s.contexts, c, k);
    assert forall place: Place, x: nat :: Holds(s', place, x) <==> Holds(s, place, x);
    PassTold(s, s');
  }

  lemma OtherKeeps(s: State, l: Label)
    requires Inv(s) && Enabled(s, l) && (l.action.Edit? || l.action.ExitThread?)
    ensures Inv(Apply(s, l))
  {
    if l.action.Edit? {
      PassKeeps(s, s, l.actor, Editing(l.action.span));
    } else {
      PassKeeps(s, Borrow(s, l.action.exiting, Some(l.actor)), l.actor, Exiting(l.action.exiting, 0));
    }
  }

  lemma StepKeeps(s: State, l: Label)
    requires Inv(s) && Enabled(s, l)
    ensures Inv(Apply(s, l))
  {
    match l.action
    case NewContext => NewContextKeeps(s, l);
    case NewSpan(span, wants) => BeginKeeps(s, l.actor, span, wants);
    case Edit(_) => OtherKeeps(s, l);
    case Close(span) => UnlistKeeps(s, l.actor, span);
    case ExitThread(_) => OtherKeeps(s, l);
    case Attach(context) => AttachKeeps(s, l.actor, s.pcs[l.actor].span, context);
    case Advance(context) => AdvanceKeeps(s, l.actor, context);
    case _ => WriteKeeps(s, l.actor, l.action);
  }

  lemma InitialHolds(actors: nat)
    ensures Inv(Initial(actors))
  {
  }

  lemma {:induction false} RunKeeps(s: State, labels: seq<Label>)
    requires Inv(s)
    ensures Inv(Run(s, labels))
    decreases |labels|
  {
    if labels != [] && Enabled(s, labels[0]) {
      StepKeeps(s, labels[0]);
      RunKeeps(Apply(s, labels[0]), labels[1..]);
    }
  }

  // ------------------------------------------------------------ main result

  /**
   In every history of taking, recording, closing, recycling, dropping and thread exit, on
   any number of threads: a live or closing span's box holds exactly the fold of that
   instance's own records since its birth, its own waiting endpoints and its own poll
   flow; every kept box is empty; and no box is in two places. A box's fields remember
   those records: one for each name, saying what the name's last record said.
   */
  lemma BoxesAreIsolated(s: State, actors: nat, labels: seq<Label>)
    requires s == Run(Initial(actors), labels)
    ensures forall span :: span in s.spans ==> span in s.stories && Tells(s.boxes, s.spans[span], s.stories[span])
    ensures forall a: nat :: a < |s.pcs| && InHand(s.pcs[a]).Some? && Busy(s.pcs[a]).Some? ==>
              Busy(s.pcs[a]).value in s.stories && Tells(s.boxes, InHand(s.pcs[a]), s.stories[Busy(s.pcs[a]).value])
    ensures forall span :: span in s.spans && s.spans[span].Some? ==>
              s.spans[span].value < |s.boxes| && Remembers(s.boxes[s.spans[span].value].fields, s.stories[span].records)
    ensures forall a: nat :: a < |s.pcs| && InHand(s.pcs[a]).Some? && Busy(s.pcs[a]).Some? ==>
              && InHand(s.pcs[a]).value < |s.boxes|
              && Remembers(s.boxes[InHand(s.pcs[a]).value].fields, s.stories[Busy(s.pcs[a]).value].records)
    ensures forall c: nat, k: nat :: KeptAt(s.contexts, c, k).Some? ==>
              KeptAt(s.contexts, c, k).value < |s.boxes| && s.boxes[KeptAt(s.contexts, c, k).value] == EMPTY
    ensures forall place: Place, other: Place, b: nat :: Holds(s, place, b) && Holds(s, other, b) ==> place == other
    ensures |s.places| == |s.boxes| && forall b: nat :: b < |s.places| ==> Holds(s, s.places[b], b)
  {
    InitialHolds(actors);
    RunKeeps(Initial(actors), labels);
    forall span | span in s.spans && s.spans[span].Some?
      ensures s.spans[span].value < |s.boxes|
      ensures Remembers(s.boxes[s.spans[span].value].fields, s.stories[span].records)
    {
      FoldRemembers(s.stories[span].records);
    }
    forall a: nat | a < |s.pcs| && InHand(s.pcs[a]).Some? && Busy(s.pcs[a]).Some?
      ensures InHand(s.pcs[a]).value < |s.boxes|
      ensures Remembers(s.boxes[InHand(s.pcs[a]).value].fields, s.stories[Busy(s.pcs[a]).value].records)
    {
      FoldRemembers(s.stories[Busy(s.pcs[a]).value].records);
    }
  }

  /** A history only ever grows by its own span's steps, and starts at the span's birth. */
  lemma StoriesAreOwn(s: State, l: Label, span: nat)
    requires Enabled(s, l)
    ensures span in s.stories ==> span in Apply(s, l).stories
    ensures span in s.stories && Apply(s, l).stories[span] != s.stories[span] ==>
              IsWrite(l.action) && s.pcs[l.actor].span == span
              && Apply(s, l).stories[span] == Told(s.stories[span], l.action)
    ensures span !in s.stories && span in Apply(s, l).stories ==>
        l.action.NewSpan? && l.action.span == span && Apply(s, l).stories[span] == BIRTH
  {
    if l.action.Attach? {
      assert Take(s, l.action.context, Live(s.pcs[l.actor].span)).0.stories == s.stories;
    } else if l.action.Advance? {
      StepStories(s, l.actor, s.pcs[l.actor], l.action.context);
    }
  }

  lemma StepStories(s: State, a: nat, pc: Pc, context: Option<nat>)
    requires a < |s.pcs| && Steps(s, pc, context)
    ensures Step(s, a, pc, context).stories == s.stories
  {
  }

  // ------------------------------------------------------------ what one step does with a box

  /** The first kept box of a context, if there is one. */
  predicate FirstKept(slots: seq<Option<nat>>, k: nat) {
    k < |slots| && slots[k].Some? && forall j: nat :: j < k ==> slots[j] == None
  }

  predicate FirstFree(slots: seq<Option<nat>>, k: nat) {
    k < |slots| && slots[k] == None && forall j: nat :: j < k ==> slots[j].Some?
  }

  lemma {:induction false} FirstWhereFirst(slots: seq<Option<nat>>, occupied: bool)
    ensures var k := FirstWhere(slots, occupied);
            forall j: nat :: j < k ==> slots[j].Some? != occupied
    decreases |slots|
  {
    if slots != [] && slots[0].Some? != occupied {
      FirstWhereFirst(slots[1..], occupied);
    }
  }

  /** A span that wants a box gets the first one its context keeps, or else a new, empty one. */
  lemma WantingIsExact(s: State, a: nat, context: Option<nat>)
    requires Inv(s) && Enabled(s, Label(a, Advance(context))) && s.pcs[a].Wanting?
    ensures var s' := Apply(s, Label(a, Advance(context)));
            && s'.pcs[a].Filling? && s'.pcs[a].span == s.pcs[a].span && s'.spans == s.spans
            && (forall k: nat :: context.Some? && FirstKept(s.contexts[context.value].slots, k) ==>
                  && s'.pcs[a].box == s.contexts[context.value].slots[k].value && s'.boxes == s.boxes
                  && KeptAt(s'.contexts, context.value, k) == None)
            && ((context.Some? ==> forall k: nat :: !FirstKept(s.contexts[context.value].slots, k)) ==>
                  s'.pcs[a].box == |s.boxes| && s'.boxes == s.boxes + [EMPTY] && s'.contexts == s.contexts)
  {
    if context.Some? {
      var slots := s.contexts[context.value].slots;
      FirstWhereFirst(slots, true);
      assert FirstWhere(slots, true) < |slots| ==> FirstKept(slots, FirstWhere(slots, true));
    }
  }

  /** A live span without a box gets one in the same way when its first record needs it. */
  lemma AttachingIsExact(s: State, a: nat, context: Option<nat>)
    requires Inv(s) && Enabled(s, Label(a, Attach(context)))
    ensures var (s', span) := (Apply(s, Label(a, Attach(context))), s.pcs[a].span);
            && s'.pcs == s.pcs && span in s'.spans && s'.spans[span].Some?
            && (forall k: nat :: context.Some? && FirstKept(s.contexts[context.value].slots, k) ==>
                  && s'.spans[span] == s.contexts[context.value].slots[k] && s'.boxes == s.boxes
                  && KeptAt(s'.contexts, context.value, k) == None)
            && ((context.Some? ==> forall k: nat :: !FirstKept(s.contexts[context.value].slots, k)) ==>
                  s'.spans[span] == Some(|s.boxes|) && s'.boxes == s.boxes + [EMPTY] && s'.contexts == s.contexts)
  {
    if context.Some? {
      var slots := s.contexts[context.value].slots;
      FirstWhereFirst(slots, true);
      assert FirstWhere(slots, true) < |slots| ==> FirstKept(slots, FirstWhere(slots, true));
    }
  }

  /** A span that wants a box is stored with it; one that does not, at once and without. */
  lemma BirthIsExact(s: State, a: nat, span: nat, wants: bool, context: Option<nat>)
    requires Inv(s)
    ensures Enabled(s, Label(a, NewSpan(span, wants))) ==>
              var s' := Apply(s, Label(a, NewSpan(span, wants)));
              if wants then s'.pcs[a] == Wanting(span) && s'.spans == s.spans
              else s'.pcs == s.pcs && s'.spans == s.spans[span := None]
    ensures Enabled(s, Label(a, Advance(context))) && s.pcs[a].Filling? ==>
              var s' := Apply(s, Label(a, Advance(context)));
              && s'.spans == s.spans[s.pcs[a].span := Some(s.pcs[a].box)] && s'.boxes == s.boxes
              && s'.pcs[a] == Idle
  {
  }

  /**
   A closed span's box is given back to whatever context the callback can acquire, on one of
   two attempts; it is dropped only if both fail. What is in it stays until it is given back.
   */
  lemma ClosingIsExact(s: State, a: nat, context: Option<nat>)
    requires Inv(s) && Enabled(s, Label(a, Advance(context))) && (s.pcs[a].Closing? || s.pcs[a].Recycling?)
    ensures var (s', pc) := (Apply(s, Label(a, Advance(context))), s.pcs[a]);
            && s'.boxes == s.boxes && pc.box < |s'.places|
            && (context.Some? ==>
                  && s'.pcs[a] == Returning(pc.span, pc.box, context.value) && s'.places == s.places
                  && s'.contexts[context.value].borrower == Some(a))
            && (context.None? && pc.Closing? ==>
                  s'.pcs[a] == Recycling(pc.span, pc.box) && s'.places == s.places)
            && (context.None? && pc.Recycling? ==> s'.pcs[a] == Idle && s'.places[pc.box] == Dropped)
            && (context.None? ==> s'.contexts == s.contexts)
  {
    assert Holds(s, Hand(a), s.pcs[a].box);
  }

  /** A callback that is done with a span gives up its guard, and changes nothing else. */
  lemma EditingEnds(s: State, a: nat, context: Option<nat>)
    requires Enabled(s, Label(a, Advance(context))) && s.pcs[a].Editing?
    ensures Apply(s, Label(a, Advance(context))) == s.(pcs := s.pcs[a := Idle])
  {
  }

  /** A closed span's box is emptied and kept in the first free slot, or dropped; the context is free again. */
  lemma ReturningIsExact(s: State, a: nat, context: Option<nat>)
    requires Inv(s) && Enabled(s, Label(a, Advance(context))) && s.pcs[a].Returning?
    ensures var (s', b, c) := (Apply(s, Label(a, Advance(context))), s.pcs[a].box, s.pcs[a].context);
            && s'.pcs[a] == Idle && s'.contexts[c].borrower == None && s'.boxes == s.boxes[b := EMPTY]
            && (forall k: nat :: FirstFree(s.contexts[c].slots, k) ==>
                  s'.contexts[c].slots == s.contexts[c].slots[k := Some(b)] && s'.places[b] == Kept(c, k))
            && ((forall k: nat :: !FirstFree(s.contexts[c].slots, k)) ==>
                  s'.contexts[c].slots == s.contexts[c].slots && s'.places[b] == Dropped)
  {
    var slots := s.contexts[s.pcs[a].context].slots;
    FirstWhereFirst(slots, false);
    assert FirstWhere(slots, false) < |slots| ==> FirstFree(slots, FirstWhere(slots, false));
  }

  /** A thread's exit drops the boxes its context keeps, one slot after the other, until none is left. */
  lemma ExitingIsExact(s: State, a: nat, context: Option<nat>)
    requires Inv(s) && Enabled(s, Label(a, Advance(context))) && s.pcs[a].Exiting?
    ensures var (s', c, k) := (Apply(s, Label(a, Advance(context))), s.pcs[a].context, s.pcs[a].slot);
            if k < |s.contexts[c].slots| then
              && s'.pcs[a] == Exiting(c, k + 1) && s'.contexts[c].slots == s.contexts[c].slots[k := None]
              && (s.contexts[c].slots[k].Some? ==>
                    var b := s.contexts[c].slots[k].value; b < |s'.places| && s'.places[b] == Dropped)
            else s'.pcs[a] == Idle && s'.contexts == s.contexts
  {
    var c, k := s.pcs[a].context, s.pcs[a].slot;
    if k < |s.contexts[c].slots| && s.contexts[c].slots[k].Some? {
      assert Holds(s, Kept(c, k), s.contexts[c].slots[k].value);
    }
  }
}
