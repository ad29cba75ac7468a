/** The work-stealing deque of `src/taskstealing.h` under sequentially consistent interleavings: one owner
    calls take and push (push may call expand), any number of thieves call steal.  Every step performs at
    most one access to a variable that another thread may touch.  Arrays are never freed.

    `restored == false` is the code as written: a take that loses its CAS returns without repairing
    `bottom`.  `restored == true` is the variant that stores `bottom = t+1` on that branch.

    A run is a finite schedule of choices, folded over the initial state; all theorems quantify over every
    schedule.  `History` holds history variables: steps write
    them but never branch on them. */
module WorkStealing {
  import Arithmetic

  /** A pushed task pointer, tagged with the number of its push so that equal pointers stay apart. */
  datatype Item = Item(task: int, id: int)

  /** Slot of logical index i in an array of n slots: i % n, by wrapping once per lap. */
  function Wrap(i: int, n: int): (r: int)
    requires 0 <= i && 0 < n
    ensures 0 <= r < n
    decreases i
  {
    if i < n then i else Wrap(i - n, n)
  }

  /** `item_t`: a circular array.  Logical index i lives in slot i % size. */
  datatype Arr = Arr(size: int, ap: seq<Item>) {
    ghost predicate Ok() { 2 <= size == |ap| }

    function At(i: int): Item {
      if 0 <= i && 0 < size == |ap| then ap[Wrap(i, size)] else Item(0, -1)
    }

    function Put(i: int, x: Item): Arr {
      if 0 <= i && 0 < size == |ap| then this.(ap := ap[Wrap(i, size) := x]) else this
    }
  }

  /** Where the owner stands inside take or push; the arguments are its local variables. */
  datatype Owner =
    | Idle
    | TakeRead
    | TakeArr(b: int)
    | TakeDec(b: int, q: nat)
    | TakeTop(b: int, q: nat)
    | TakeReset(t: int)
    | TakeSlot(b: int, q: nat, t: int)
    | TakeCas(t: int, x: Item)
    | TakeFix(t: int, x: Item)
    | TakeFail(t: int)
    | PushRead(x: Item)
    | PushTop(x: Item, b: int)
    | PushArr(x: Item, b: int, t: int)
    | GrowAlloc(x: Item, b: int)
    | GrowTop(x: Item, b: int, grown: Arr)
    | GrowCopy(x: Item, b: int, grown: Arr, i: int)
    | GrowPublish(x: Item, b: int, grown: Arr)
    | PushSlot(x: Item, b: int, q: nat)
    | PushBottom(x: Item, b: int)
  {
    predicate Taking() {
      TakeRead? || TakeArr? || TakeDec? || TakeTop? || TakeReset? || TakeSlot? || TakeCas? || TakeFix? || TakeFail?
    }

    predicate Growing() { GrowAlloc? || GrowTop? || GrowCopy? || GrowPublish? }
  }

  /** Where a thief stands inside steal. */
  datatype Thief =
    | Rest
    | StealBottom(t: int)
    | StealArr(t: int, b: int)
    | StealSlot(t: int, q: nat)
    | StealCas(t: int, x: Item)

  datatype Call = Take | Push(task: int)

  /** History: every pushed item in order, and for each whether its push found bottom == top-1 (`mark` for the
      push in progress); items in the order they left the deque, items returned to a caller, and the item the
      owner has removed but not yet returned; whether the owner's latest completed call is a take that lost its CAS
      and left `bottom` as it was (in the variant that repairs `bottom` none does). */
  datatype History = History(
    pushed: seq<Item>, skewed: seq<bool>, mark: bool,
    popped: seq<Item>, returned: seq<Item>, hand: seq<Item>,
    lostCas: bool)

  datatype State = State(
    top: int, bottom: int, wsq: nat, arrs: seq<Arr>,
    owner: Owner, thieves: map<nat, Thief>, h: History)
  {
    function Buf(q: nat): Arr { if q < |arrs| then arrs[q] else Arr(0, []) }
    function Cell(i: int): Item { Buf(wsq).At(i) }
  }

  function Blank(n: int, junk: int -> Item): Arr
  {
    if n < 0 then Arr(0, []) else Arr(n, seq(n, k => junk(k)))
  }

  function Init(junk: int -> Item): State {
    State(0, 0, 0, [Blank(16, junk)], Idle, map[], History([], [], false, [], [], [], false))
  }

  // ---------------------------------------------------------------- steps

  function TakeStep(restored: bool, s: State): State {
    match s.owner
    case TakeRead => s.(owner := TakeArr(s.bottom - 1))
    case TakeArr(b) => s.(owner := TakeDec(b, s.wsq))
    case TakeDec(b, q) => s.(bottom := b, owner := TakeTop(b, q))
    case TakeTop(b, q) =>
      if b < s.top then s.(owner := TakeReset(s.top))
      else if s.top < b then
        s.(owner := TakeSlot(b, q, s.top), h := s.h.(popped := s.h.popped + [s.Cell(b)], hand := [s.Cell(b)]))
      else s.(owner := TakeSlot(b, q, s.top))
    case TakeReset(t) => s.(bottom := t, owner := Idle, h := s.h.(lostCas := false))
    case TakeSlot(b, q, t) =>
      if t < b then
        s.(owner := Idle, h := s.h.(returned := s.h.returned + [s.Buf(q).At(b)], hand := [], lostCas := false))
      else s.(owner := TakeCas(t, s.Buf(q).At(b)))
    case TakeCas(t, x) =>
      if s.top == t then
        s.(top := t + 1, owner := TakeFix(t, x), h := s.h.(popped := s.h.popped + [x], hand := [x]))
      else if restored then s.(owner := TakeFail(t))
      else s.(owner := Idle, h := s.h.(lostCas := true))
    case TakeFix(t, x) =>
      s.(bottom := t + 1, owner := Idle, h := s.h.(returned := s.h.returned + [x], hand := [], lostCas := false))
    case TakeFail(t) => s.(bottom := t + 1, owner := Idle, h := s.h.(lostCas := false))
    case _ => s
  }

  function PushStep(s: State): State {
    match s.owner
    case PushRead(x) => s.(owner := PushTop(x, s.bottom), h := s.h.(mark := s.bottom == s.top - 1))
    case PushTop(x, b) => s.(owner := PushArr(x, b, s.top))
    case PushArr(x, b, t) =>
      if b - t >= s.Buf(s.wsq).size - 1 then s.(owner := GrowAlloc(x, b))
      else s.(owner := PushSlot(x, b, s.wsq))
    case PushSlot(x, b, q) =>
      if q < |s.arrs| then s.(arrs := s.arrs[q := s.arrs[q].Put(b, x)], owner := PushBottom(x, b)) else s
    case PushBottom(x, b) =>
      s.(bottom := b + 1, owner := Idle,
         h := s.h.(pushed := s.h.pushed + [x], skewed := s.h.skewed + [s.h.mark], lostCas := false))
    case _ => s
  }

  /** The steps of `expand`. */
  function GrowStep(s: State, junk: int -> Item): State {
    match s.owner
    case GrowAlloc(x, b) => s.(owner := GrowTop(x, b, Blank(s.Buf(s.wsq).size * 2, junk)))
    case GrowTop(x, b, grown) => s.(owner := GrowCopy(x, b, grown, s.top))
    case GrowCopy(x, b, grown, i) =>
      if i < s.bottom then s.(owner := GrowCopy(x, b, grown.Put(i, s.Cell(i)), i + 1))
      else s.(owner := GrowPublish(x, b, grown))
    case GrowPublish(x, b, grown) =>
      s.(arrs := s.arrs + [grown], wsq := |s.arrs|, owner := PushSlot(x, b, |s.arrs|))
    case _ => s
  }

  function OwnerStep(restored: bool, s: State, call: Call, junk: int -> Item): State {
    if s.owner.Idle? then
      s.(owner := match call case Take => TakeRead case Push(task) => PushRead(Item(task, |s.h.pushed|)))
    else if s.owner.Taking() then TakeStep(restored, s)
    else if s.owner.Growing() then GrowStep(s, junk)
    else PushStep(s)
  }

  function Pc(s: State, i: nat): Thief {
    if i in s.thieves then s.thieves[i] else Rest
  }

  function ThiefStep(s: State, i: nat): State {
    match Pc(s, i)
    case Rest => s.(thieves := s.thieves[i := StealBottom(s.top)])
    case StealBottom(t) => s.(thieves := s.thieves[i := StealArr(t, s.bottom)])
    case StealArr(t, b) => s.(thieves := s.thieves[i := if t >= b then Rest else StealSlot(t, s.wsq)])
    case StealSlot(t, q) => s.(thieves := s.thieves[i := StealCas(t, s.Buf(q).At(t))])
    case StealCas(t, x) =>
      if s.top == t then
        s.(top := t + 1, thieves := s.thieves[i := Rest],
           h := s.h.(popped := s.h.popped + [x], returned := s.h.returned + [x]))
      else s.(thieves := s.thieves[i := Rest])
  }

  /** One scheduling choice: the owner moves (starting `call` when idle, reading `junk` out of fresh memory),
      or thief i moves. */
  datatype Choice = ByOwner(call: Call, junk: int -> Item) | ByThief(i: nat)

  function Step(restored: bool, s: State, c: Choice): State {
    match c
    case ByOwner(call, junk) => OwnerStep(restored, s, call, junk)
    case ByThief(i) => ThiefStep(s, i)
  }

  ghost function After(restored: bool, junk: int -> Item, run: seq<Choice>): State {
    if run == [] then Init(junk)
    else Step(restored, After(restored, junk, run[..|run| - 1]), run[|run| - 1])
  }

  // ---------------------------------------------------------------- the abstract deque

  /** One past the last index that still belongs to the abstract deque.  While the owner is between lowering
      `bottom` and settling who gets index b, that index still counts. */
  function High(s: State): int {
    match s.owner
    case TakeTop(b, q) => b + 1
    case TakeSlot(b, q, t) => if t < b then b else b + 1
    case TakeCas(t, x) => t + 1
    case _ => s.bottom
  }

  ghost function Slice(a: Arr, lo: int, hi: int): seq<Item> {
    if lo < hi then seq(hi - lo, k requires 0 <= k < hi - lo => a.At(lo + k)) else []
  }

  /** The abstract deque: oldest item first. */
  ghost function Window(s: State): seq<Item> {
    Slice(s.Buf(s.wsq), s.top, High(s))
  }

  datatype Op = Tau | PushBack(x: Item) | PopBack(x: Item) | PopFront(x: Item) | SawEmpty

  ghost predicate Spec(d: seq<Item>, op: Op, d': seq<Item>) {
    match op
    case Tau => d' == d
    case PushBack(x) => d' == d + [x]
    case PopBack(x) => d == d' + [x]
    case PopFront(x) => d == [x] + d'
    case SawEmpty => d == [] && d' == []
  }

  /** What a step means for the abstract deque.  A push that began at bottom == top-1 means nothing. */
  ghost function Meaning(s: State, c: Choice): Op {
    match c
    case ByOwner(_, _) =>
      (match s.owner
       case TakeTop(b, q) => if b < s.top then SawEmpty else if s.top < b then PopBack(s.Cell(b)) else Tau
       case TakeCas(t, x) => if s.top == t then PopBack(x) else SawEmpty
       case PushBottom(x, b) => if s.h.mark then Tau else PushBack(x)
       case _ => Tau)
    case ByThief(i) =>
      (match Pc(s, i)
       case StealCas(t, x) => if s.top == t then PopFront(x) else Tau
       case _ => Tau)
  }

  /** The pushed items whose push did not begin at bottom == top-1. */
  ghost function Kept(pushed: seq<Item>, skewed: seq<bool>): seq<Item>
    requires |pushed| == |skewed|
  {
    if pushed == [] then []
    else
      var n := |pushed| - 1;
      Kept(pushed[..n], skewed[..n]) + if skewed[n] then [] else [pushed[n]]
  }

  // ---------------------------------------------------------------- the invariant

  ghost predicate ArraysOk(s: State) {
    && s.wsq < |s.arrs|
    && (forall q :: 0 <= q < |s.arrs| ==> s.arrs[q].Ok())
  }

  /** Every live cell has been copied, as far as the copy loop has come. */
  ghost predicate Copied(s: State, grown: Arr, upTo: int) {
    && grown.Ok() && grown.size == 2 * s.Buf(s.wsq).size
    && forall j :: s.top <= j < upTo && j < s.bottom ==> grown.At(j) == s.Cell(j)
  }

  ghost predicate Settled(s: State) {
    && 0 <= s.bottom
    && if s.h.lostCas then s.bottom == s.top - 1 else s.top <= s.bottom
  }

  ghost predicate Pushing(s: State, x: Item, b: int) {
    Settled(s) && b == s.bottom && s.h.mark == s.h.lostCas && x.id == |s.h.pushed|
  }

  ghost predicate OwnerOk(s: State) {
    && 0 <= s.top
    && High(s) - s.top <= s.Buf(s.wsq).size - 1
    && match s.owner
       case Idle => Settled(s)
       case TakeRead => Settled(s)
       case TakeArr(b) => Settled(s) && b == s.bottom - 1
       case TakeDec(b, q) => Settled(s) && b == s.bottom - 1 && q == s.wsq
       case TakeTop(b, q) =>
         && s.bottom == b && q == s.wsq && -1 <= b
         && if s.h.lostCas then s.top == b + 2 else s.top <= b + 1
       case TakeReset(t) => s.bottom < s.top == t
       case TakeSlot(b, q, t) =>
         && s.bottom == b && q == s.wsq && 0 <= t <= s.top && t <= b && !s.h.lostCas
         && (if t < b then s.top <= b && s.h.hand == [s.Cell(b)] else s.top <= b + 1)
       case TakeCas(t, x) =>
         && s.bottom == t && 0 <= t <= s.top <= t + 1 && !s.h.lostCas
         && (s.top == t ==> x == s.Cell(t))
       case TakeFix(t, x) => s.bottom == t && s.top == t + 1 && s.h.hand == [x] && !s.h.lostCas
       case TakeFail(t) => s.bottom == t && s.top == t + 1 && !s.h.lostCas
       case PushRead(x) => Settled(s) && x.id == |s.h.pushed|
       case PushTop(x, b) => Pushing(s, x, b)
       case PushArr(x, b, t) => Pushing(s, x, b) && t <= s.top
       case GrowAlloc(x, b) => Pushing(s, x, b)
       case GrowTop(x, b, grown) => Pushing(s, x, b) && Copied(s, grown, s.top)
       case GrowCopy(x, b, grown, i) => Pushing(s, x, b) && 0 <= i && Copied(s, grown, i)
       case GrowPublish(x, b, grown) => Pushing(s, x, b) && Copied(s, grown, s.bottom)
       case PushSlot(x, b, q) => Pushing(s, x, b) && q == s.wsq && b - s.top <= s.Buf(s.wsq).size - 2
       case PushBottom(x, b) =>
         Pushing(s, x, b) && s.Cell(b) == x && b - s.top <= s.Buf(s.wsq).size - 2
  }

  ghost predicate HandOk(s: State) {
    s.owner.TakeFix? || (s.owner.TakeSlot? && s.owner.t < s.owner.b) || s.h.hand == []
  }

  /** A thief whose index is still current is after a live cell and, once it has read one, holds that cell. */
  ghost predicate ThiefOk(s: State, p: Thief) {
    match p
    case Rest => true
    case StealBottom(t) => 0 <= t <= s.top
    case StealArr(t, b) => 0 <= t <= s.top && (t < b && t == s.top ==> t < High(s))
    case StealSlot(t, q) =>
      && 0 <= t <= s.top && q < |s.arrs|
      && (t == s.top ==> t < High(s) && s.arrs[q].At(t) == s.Cell(t))
    case StealCas(t, x) => 0 <= t <= s.top && (t == s.top ==> t < High(s) && x == s.Cell(t))
  }

  ghost predicate ThievesOk(s: State) {
    forall i :: i in s.thieves ==> ThiefOk(s, s.thieves[i])
  }

  ghost predicate HistoryOk(restored: bool, s: State) {
    && |s.h.skewed| == |s.h.pushed|
    && (forall i :: 0 <= i < |s.h.pushed| ==> s.h.pushed[i].id == i)
    && multiset(s.h.popped) == multiset(s.h.returned) + multiset(s.h.hand)
    && multiset(Kept(s.h.pushed, s.h.skewed)) == multiset(s.h.popped) + multiset(Window(s))
    && (restored ==> !s.h.lostCas && (forall i :: 0 <= i < |s.h.skewed| ==> !s.h.skewed[i]))
  }

  ghost predicate Shape(s: State) {
    ArraysOk(s) && OwnerOk(s) && HandOk(s) && ThievesOk(s)
  }

  ghost predicate Inv(restored: bool, s: State) {
    Shape(s) && HistoryOk(restored, s)
  }

  // ---------------------------------------------------------------- circular arrays

  /** `Wrap` is the source's remainder. */
  lemma {:induction false} WrapIsMod(i: int, n: int)
    requires 0 <= i && 0 < n
    ensures Wrap(i, n) == i % n
    decreases i
  {
    if i >= n {
      WrapIsMod(i - n, n);
      Arithmetic.ModStep(i, n);
    }
  }

  lemma {:induction false} SlotsDiffer(i: int, j: int, n: int)
    requires 0 <= i < j < i + n
    ensures Wrap(i, n) != Wrap(j, n)
    decreases i
  {
    if i >= n { SlotsDiffer(i - n, j - n, n); }
  }

  /** Writing one logical index leaves every other index less than one lap away alone. */
  lemma PutAt(a: Arr, i: int, x: Item, j: int)
    requires a.Ok() && 0 <= i && 0 <= j && -a.size < j - i < a.size
    ensures a.Put(i, x).Ok() && a.Put(i, x).size == a.size
    ensures a.Put(i, x).At(j) == if i == j then x else a.At(j)
  {
    if i < j { SlotsDiffer(i, j, a.size); }
    if j < i { SlotsDiffer(j, i, a.size); }
  }

  /** Growing, writing and moving the window leave a slice alone when its cells agree. */
  lemma SliceEq(a: Arr, a': Arr, lo: int, hi: int)
    requires forall j :: lo <= j < hi ==> a.At(j) == a'.At(j)
    ensures Slice(a, lo, hi) == Slice(a', lo, hi)
  {
  }

  lemma SliceEnds(a: Arr, lo: int, hi: int)
    requires lo < hi
    ensures Slice(a, lo, hi) == [a.At(lo)] + Slice(a, lo + 1, hi)
    ensures Slice(a, lo, hi) == Slice(a, lo, hi - 1) + [a.At(hi - 1)]
  {
  }

  // ---------------------------------------------------------------- preservation

  lemma GrowCopyKeeps(s: State, junk: int -> Item)
    requires Shape(s) && s.owner.GrowCopy?
    ensures Shape(GrowStep(s, junk)) && Window(GrowStep(s, junk)) == Window(s)
  {
    var GrowCopy(x, b, grown, i) := s.owner;
    var s' := GrowStep(s, junk);
    if i < s.bottom {
      forall j | s.top <= j < i + 1 && j < s.bottom
        ensures grown.Put(i, s.Cell(i)).At(j) == s.Cell(j)
      {
        PutAt(grown, i, s.Cell(i), j);
      }
      PutAt(grown, i, s.Cell(i), i);
    }
  }

  lemma PublishKeeps(s: State, junk: int -> Item)
    requires Shape(s) && s.owner.GrowPublish?
    ensures Shape(GrowStep(s, junk)) && Window(GrowStep(s, junk)) == Window(s)
  {
    var s' := GrowStep(s, junk);
    SliceEq(s.Buf(s.wsq), s'.Buf(s'.wsq), s.top, s.bottom);
    forall i | i in s'.thieves ensures ThiefOk(s', s'.thieves[i]) {
      assert ThiefOk(s, s.thieves[i]);
    }
  }

  lemma PushSlotCells(s: State)
    requires Shape(s) && s.owner.PushSlot?
    ensures var s' := PushStep(s);
      && s'.Cell(s.owner.b) == s.owner.x
      && (forall j :: s.top <= j < s.bottom ==> s'.Cell(j) == s.Cell(j))
      && ArraysOk(s') && s'.Buf(s.wsq).size == s.Buf(s.wsq).size
      && forall q, j :: 0 <= q < |s.arrs| && q != s.wsq ==> s'.arrs[q].At(j) == s.arrs[q].At(j)
  {
    var PushSlot(x, b, q) := s.owner;
    PutAt(s.arrs[q], b, x, b);
    forall j | s.top <= j < s.bottom ensures s.arrs[q].Put(b, x).At(j) == s.arrs[q].At(j) {
      PutAt(s.arrs[q], b, x, j);
    }
  }

  lemma PushSlotKeeps(s: State)
    requires Shape(s) && s.owner.PushSlot?
    ensures Shape(PushStep(s)) && Window(PushStep(s)) == Window(s)
  {
    var s' := PushStep(s);
    PushSlotCells(s);
    assert s'.Buf(s'.wsq) == s'.arrs[s.wsq] && s.Buf(s.wsq) == s.arrs[s.wsq];
    assert forall j :: s.top <= j < s.bottom ==> s.Buf(s.wsq).At(j) == s'.Buf(s'.wsq).At(j) by {
      forall j | s.top <= j < s.bottom ensures s.Buf(s.wsq).At(j) == s'.Buf(s'.wsq).At(j) {
        assert s'.Cell(j) == s.Cell(j);
      }
    }
    SliceEq(s.Buf(s.wsq), s'.Buf(s'.wsq), s.top, s.bottom);
    forall i | i in s'.thieves ensures ThiefOk(s', s'.thieves[i]) {
      assert ThiefOk(s, s.thieves[i]);
    }
  }

  /** What a thief knows survives any step that leaves the arrays alone and does not take the current top
      cell away without moving `top`. */
  lemma ThiefSurvives(s: State, s': State, p: Thief)
    requires ThiefOk(s, p) && s'.arrs == s.arrs && s'.wsq == s.wsq && s.top <= s'.top
    requires s'.top == s.top && s.top < High(s) ==> s.top < High(s')
    ensures ThiefOk(s', p)
  {
  }

  lemma ThievesSurvive(s: State, s': State)
    requires ThievesOk(s) && s'.arrs == s.arrs && s'.wsq == s.wsq && s.top <= s'.top
    requires s'.top == s.top && s.top < High(s) ==> s.top < High(s')
    requires s'.thieves == s.thieves
    ensures ThievesOk(s')
  {
    forall i | i in s'.thieves ensures ThiefOk(s', s'.thieves[i]) {
      ThiefSurvives(s, s', s.thieves[i]);
    }
  }

  /** The window's two ends, before and after. */
  lemma WindowEnds(s: State)
    ensures s.top < High(s) ==> Window(s) == [s.Cell(s.top)] + Slice(s.Buf(s.wsq), s.top + 1, High(s))
    ensures s.top < High(s) ==> Window(s) == Slice(s.Buf(s.wsq), s.top, High(s) - 1) + [s.Cell(High(s) - 1)]
    ensures s.top >= High(s) ==> Window(s) == []
  {
    if s.top < High(s) { SliceEnds(s.Buf(s.wsq), s.top, High(s)); }
  }

  lemma CallKeeps(restored: bool, s: State, call: Call, junk: int -> Item)
    requires Shape(s) && s.owner.Idle?
    ensures var s' := OwnerStep(restored, s, call, junk); Shape(s') && Window(s') == Window(s)
  {
    ThievesSurvive(s, OwnerStep(restored, s, call, junk));
  }

  lemma TakeOwner(restored: bool, s: State)
    requires ArraysOk(s) && OwnerOk(s) && HandOk(s) && s.owner.Taking() && (restored ==> !s.h.lostCas)
    ensures var s' := TakeStep(restored, s);
      && OwnerOk(s') && HandOk(s') && s'.arrs == s.arrs && s'.wsq == s.wsq && s'.thieves == s.thieves
      && s.top <= s'.top && (s'.top == s.top && s.top < High(s) ==> s.top < High(s'))
  {
  }

  lemma TakeMeans(restored: bool, s: State, call: Call, junk: int -> Item)
    requires ArraysOk(s) && OwnerOk(s) && s.owner.Taking()
    ensures Spec(Window(s), Meaning(s, ByOwner(call, junk)), Window(TakeStep(restored, s)))
  {
    WindowEnds(s);
    WindowEnds(TakeStep(restored, s));
  }

  lemma TakeKeeps(restored: bool, s: State, call: Call, junk: int -> Item)
    requires Shape(s) && (restored ==> !s.h.lostCas) && s.owner.Taking()
    ensures Shape(OwnerStep(restored, s, call, junk))
    ensures Spec(Window(s), Meaning(s, ByOwner(call, junk)), Window(OwnerStep(restored, s, call, junk)))
  {
    TakeOwner(restored, s);
    TakeMeans(restored, s, call, junk);
    ThievesSurvive(s, TakeStep(restored, s));
  }

  lemma PushOwner(s: State)
    requires Shape(s) && !s.owner.PushSlot? && !s.owner.Idle? && !s.owner.Taking() && !s.owner.Growing()
    ensures var s' := PushStep(s);
      && OwnerOk(s') && HandOk(s') && s'.arrs == s.arrs && s'.wsq == s.wsq && s'.thieves == s.thieves
      && s.top == s'.top && (s.top < High(s) ==> s.top < High(s'))
  {
  }

  lemma PushMeans(s: State, call: Call, junk: int -> Item)
    requires ArraysOk(s) && OwnerOk(s) && !s.owner.PushSlot? && !s.owner.Idle? && !s.owner.Taking()
      && !s.owner.Growing()
    ensures Spec(Window(s), Meaning(s, ByOwner(call, junk)), Window(PushStep(s)))
  {
    if s.owner.PushBottom? {
      WindowEnds(s);
      WindowEnds(PushStep(s));
    } else {
      assert Window(PushStep(s)) == Window(s);
    }
  }

  lemma PushKeeps(restored: bool, s: State, call: Call, junk: int -> Item)
    requires Shape(s) && !s.owner.PushSlot? && !s.owner.Idle? && !s.owner.Taking() && !s.owner.Growing()
    ensures Shape(OwnerStep(restored, s, call, junk))
    ensures Spec(Window(s), Meaning(s, ByOwner(call, junk)), Window(OwnerStep(restored, s, call, junk)))
  {
    PushOwner(s);
    PushMeans(s, call, junk);
    ThievesSurvive(s, PushStep(s));
  }

  lemma GrowStartKeeps(s: State, junk: int -> Item)
    requires Shape(s) && (s.owner.GrowAlloc? || s.owner.GrowTop?)
    ensures var s' := GrowStep(s, junk); Shape(s') && Window(s') == Window(s)
  {
    ThievesSurvive(s, GrowStep(s, junk));
  }

  lemma GrowKeeps(s: State, junk: int -> Item)
    requires Shape(s) && s.owner.Growing()
    ensures var s' := GrowStep(s, junk); Shape(s') && Window(s') == Window(s)
  {
    match s.owner
    case GrowCopy(_, _, _, _) => GrowCopyKeeps(s, junk);
    case GrowPublish(_, _, _) => PublishKeeps(s, junk);
    case _ => GrowStartKeeps(s, junk);
  }

  lemma OwnerKeeps(restored: bool, s: State, call: Call, junk: int -> Item)
    requires Shape(s) && (restored ==> !s.h.lostCas)
    ensures Shape(OwnerStep(restored, s, call, junk))
    ensures Spec(Window(s), Meaning(s, ByOwner(call, junk)), Window(OwnerStep(restored, s, call, junk)))
  {
    if s.owner.Idle? { CallKeeps(restored, s, call, junk); }
    else if s.owner.Taking() { TakeKeeps(restored, s, call, junk); }
    else if s.owner.Growing() { GrowKeeps(s, junk); }
    else if s.owner.PushSlot? { PushSlotKeeps(s); }
    else { PushKeeps(restored, s, call, junk); }
  }

  /** `top` may only move up to the end of the window. */
  lemma TopMoves(s: State, s': State)
    requires Shape(s) && s' == s.(top := s'.top, thieves := s'.thieves, h := s'.h)
    requires s'.h == s.h.(popped := s'.h.popped, returned := s'.h.returned)
    requires s.top <= s'.top <= s.top + 1 && (s'.top == s.top + 1 ==> s.top < High(s))
    ensures OwnerOk(s')
  {
  }

  lemma ThiefSelf(s: State, i: nat)
    requires Shape(s)
    ensures ThiefOk(ThiefStep(s, i), Pc(ThiefStep(s, i), i))
  {
    assert ThiefOk(s, Pc(s, i));
    assert s.bottom <= High(s);
  }

  lemma ThiefKeepsThieves(s: State, i: nat)
    requires Shape(s)
    ensures ThievesOk(ThiefStep(s, i))
  {
    var s' := ThiefStep(s, i);
    forall k | k in s'.thieves ensures ThiefOk(s', s'.thieves[k]) {
      if k != i { ThiefSurvives(s, s', s.thieves[k]); } else { ThiefSelf(s, i); }
    }
  }

  lemma ThiefMeans(s: State, i: nat)
    requires Shape(s)
    ensures Spec(Window(s), Meaning(s, ByThief(i)), Window(ThiefStep(s, i)))
  {
    var s' := ThiefStep(s, i);
    assert ThiefOk(s, Pc(s, i));
    assert High(s') == High(s) && s'.Buf(s'.wsq) == s.Buf(s.wsq);
    if s.top < High(s) { SliceEnds(s.Buf(s.wsq), s.top, High(s)); }
  }

  lemma ThiefKeeps(s: State, i: nat)
    requires Shape(s)
    ensures Shape(ThiefStep(s, i))
    ensures Spec(Window(s), Meaning(s, ByThief(i)), Window(ThiefStep(s, i)))
  {
    var s' := ThiefStep(s, i);
    assert Pc(s, i).StealCas? && s.top == Pc(s, i).t ==> s.top < High(s) by { assert ThiefOk(s, Pc(s, i)); }
    TopMoves(s, s');
    ThiefKeepsThieves(s, i);
    ThiefMeans(s, i);
  }

  // ---------------------------------------------------------------- histories

  function Added(op: Op): seq<Item> { if op.PushBack? then [op.x] else [] }

  function Removed(op: Op): seq<Item> { if op.PopBack? || op.PopFront? then [op.x] else [] }

  lemma Conserves(d: seq<Item>, op: Op, d': seq<Item>)
    requires Spec(d, op, d')
    ensures multiset(d) + multiset(Added(op)) == multiset(d') + multiset(Removed(op))
  {
  }

  /** What a step adds to the histories, by what it means for the abstract deque. */
  ghost predicate Recorded(h: History, h': History, op: Op, skew: bool) {
    && h'.popped == h.popped + Removed(op)
    && ((h'.pushed == h.pushed && h'.skewed == h.skewed && Added(op) == [])
        || (|h'.pushed| == |h.pushed| + 1 && h'.pushed[..|h.pushed|] == h.pushed
            && h'.skewed == h.skewed + [skew] && Added(op) == if skew then [] else [h'.pushed[|h.pushed|]]))
  }

  lemma KeptGrows(h: History, h': History, op: Op, skew: bool)
    requires Recorded(h, h', op, skew) && |h.pushed| == |h.skewed|
    ensures |h'.pushed| == |h'.skewed| && Kept(h'.pushed, h'.skewed) == Kept(h.pushed, h.skewed) + Added(op)
  {
    if h'.pushed != h.pushed { assert h'.skewed[..|h.skewed|] == h.skewed; }
  }

  lemma TakeRecords(restored: bool, s: State, call: Call, junk: int -> Item)
    requires s.owner.Taking()
    ensures Recorded(s.h, TakeStep(restored, s).h, Meaning(s, ByOwner(call, junk)), s.h.mark)
  {
  }

  lemma PushRecords(s: State, call: Call, junk: int -> Item)
    requires !s.owner.Taking()
    ensures Recorded(s.h, PushStep(s).h, Meaning(s, ByOwner(call, junk)), s.h.mark)
  {
  }

  /** The histories record exactly what the steps mean for the abstract deque. */
  lemma HistoryAgrees(restored: bool, s: State, c: Choice)
    requires |s.h.pushed| == |s.h.skewed|
    ensures var s' := Step(restored, s, c);
      && |s'.h.pushed| == |s'.h.skewed|
      && Kept(s'.h.pushed, s'.h.skewed) == Kept(s.h.pushed, s.h.skewed) + Added(Meaning(s, c))
      && s'.h.popped == s.h.popped + Removed(Meaning(s, c))
  {
    var s' := Step(restored, s, c);
    if c.ByOwner? && s.owner.Taking() {
      TakeRecords(restored, s, c.call, c.junk);
    } else if c.ByOwner? && !s.owner.Idle? && !s.owner.Growing() {
      PushRecords(s, c.call, c.junk);
    }
    KeptGrows(s.h, s'.h, Meaning(s, c), s.h.mark);
  }

  /** The hand holds an item only between the step that removes it and the step that returns it. */
  ghost predicate Hands(s: State) {
    match s.owner
    case TakeSlot(b, q, t) => s.h.hand == if t < b then [s.Buf(q).At(b)] else []
    case TakeFix(t, x) => s.h.hand == [x]
    case _ => s.h.hand == []
  }

  ghost predicate HandMove(p: seq<Item>, r: seq<Item>, h: seq<Item>, p': seq<Item>, r': seq<Item>, h': seq<Item>) {
    || (p' == p && r' == r && h' == h)
    || (p' == p + h' && r' == r && h == [])
    || (p' == p && r' == r + h && h' == [])
  }

  lemma HandMoveConserves(p: seq<Item>, r: seq<Item>, h: seq<Item>, p': seq<Item>, r': seq<Item>, h': seq<Item>)
    requires HandMove(p, r, h, p', r', h') && multiset(p) == multiset(r) + multiset(h)
    ensures multiset(p') == multiset(r') + multiset(h')
  {
  }

  lemma TakeHand(restored: bool, s: State)
    requires Hands(s) && s.owner.Taking()
    ensures var s' := TakeStep(restored, s);
      HandMove(s.h.popped, s.h.returned, s.h.hand, s'.h.popped, s'.h.returned, s'.h.hand)
  {
  }

  /** What has left the deque has been returned or is in the owner's hand. */
  lemma OwnerHand(restored: bool, s: State, call: Call, junk: int -> Item)
    requires Hands(s)
    ensures var s' := OwnerStep(restored, s, call, junk);
      HandMove(s.h.popped, s.h.returned, s.h.hand, s'.h.popped, s'.h.returned, s'.h.hand)
  {
    if s.owner.Taking() { TakeHand(restored, s); }
  }

  lemma HandStep(restored: bool, s: State, c: Choice)
    requires multiset(s.h.popped) == multiset(s.h.returned) + multiset(s.h.hand) && Hands(s)
    ensures var s' := Step(restored, s, c); multiset(s'.h.popped) == multiset(s'.h.returned) + multiset(s'.h.hand)
  {
    var s' := Step(restored, s, c);
    match c {
      case ByOwner(call, junk) =>
        OwnerHand(restored, s, call, junk);
        HandMoveConserves(s.h.popped, s.h.returned, s.h.hand, s'.h.popped, s'.h.returned, s'.h.hand);
      case ByThief(i) => ThiefHand(s, i);
    }
  }

  lemma ThiefHand(s: State, i: nat)
    requires multiset(s.h.popped) == multiset(s.h.returned) + multiset(s.h.hand)
    ensures var s' := ThiefStep(s, i); multiset(s'.h.popped) == multiset(s'.h.returned) + multiset(s'.h.hand)
  {
  }

  ghost predicate PushedOk(restored: bool, h: History) {
    && |h.skewed| == |h.pushed| && (forall i :: 0 <= i < |h.pushed| ==> h.pushed[i].id == i)
    && (restored ==> !h.lostCas && (forall i :: 0 <= i < |h.skewed| ==> !h.skewed[i]))
  }

  lemma TakePushes(restored: bool, s: State)
    requires PushedOk(restored, s.h)
    ensures PushedOk(restored, TakeStep(restored, s).h)
  {
  }

  lemma PushPushes(restored: bool, s: State)
    requires s.owner.PushBottom? ==> s.owner.x.id == |s.h.pushed| && s.h.mark == s.h.lostCas
    requires PushedOk(restored, s.h)
    ensures PushedOk(restored, PushStep(s).h)
  {
  }

  lemma PushedStep(restored: bool, s: State, c: Choice)
    requires s.owner.PushBottom? ==> s.owner.x.id == |s.h.pushed| && s.h.mark == s.h.lostCas
    requires PushedOk(restored, s.h)
    ensures PushedOk(restored, Step(restored, s, c).h)
  {
    TakePushes(restored, s);
    PushPushes(restored, s);
  }

  lemma ShapeHands(s: State)
    requires Shape(s)
    ensures Hands(s) && (s.owner.PushBottom? ==> s.owner.x.id == |s.h.pushed| && s.h.mark == s.h.lostCas)
  {
  }

  /** Gluing: every kept item has left or is in the window. */
  lemma Balance(kept: seq<Item>, popped: seq<Item>, w: seq<Item>, op: Op, kept': seq<Item>, popped': seq<Item>,
                w': seq<Item>)
    requires multiset(kept) == multiset(popped) + multiset(w) && Spec(w, op, w')
    requires kept' == kept + Added(op) && popped' == popped + Removed(op)
    ensures multiset(kept') == multiset(popped') + multiset(w')
  {
    Conserves(w, op, w');
  }

  lemma HistoryStep(restored: bool, s: State, c: Choice)
    requires Inv(restored, s)
    requires Spec(Window(s), Meaning(s, c), Window(Step(restored, s, c)))
    ensures HistoryOk(restored, Step(restored, s, c))
  {
    var s' := Step(restored, s, c);
    ShapeHands(s);
    HistoryAgrees(restored, s, c);
    HandStep(restored, s, c);
    PushedStep(restored, s, c);
    Balance(Kept(s.h.pushed, s.h.skewed), s.h.popped, Window(s), Meaning(s, c),
      Kept(s'.h.pushed, s'.h.skewed), s'.h.popped, Window(s'));
  }

  lemma StepKeeps(restored: bool, s: State, c: Choice)
    requires Inv(restored, s)
    ensures Inv(restored, Step(restored, s, c))
    ensures Spec(Window(s), Meaning(s, c), Window(Step(restored, s, c)))
  {
    match c {
      case ByOwner(call, junk) => OwnerKeeps(restored, s, call, junk);
      case ByThief(i) => ThiefKeeps(s, i);
    }
    HistoryStep(restored, s, c);
  }

  // ---------------------------------------------------------------- theorems over every run

  lemma {:induction false} Safe(restored: bool, junk: int -> Item, run: seq<Choice>)
    ensures Inv(restored, After(restored, junk, run))
  {
    if run != [] {
      Safe(restored, junk, run[..|run| - 1]);
      StepKeeps(restored, After(restored, junk, run[..|run| - 1]), run[|run| - 1]);
    }
  }

  /** Refinement: in every run, the next step of any thread does to the window what `Meaning` says the
      sequential deque does.  Successful pushes append, takes remove the newest item, steals the oldest, and
      a take that will answer EMPTY has seen the window empty. */
  lemma RefinesDeque(restored: bool, junk: int -> Item, run: seq<Choice>, c: Choice)
    ensures var s := After(restored, junk, run);
      Spec(Window(s), Meaning(s, c), Window(Step(restored, s, c)))
  {
    Safe(restored, junk, run);
    StepKeeps(restored, After(restored, junk, run), c);
  }

  lemma OwnerReturns(restored: bool, s: State, call: Call, junk: int -> Item)
    requires Hands(s)
    ensures var s' := OwnerStep(restored, s, call, junk);
      s'.h.returned != s.h.returned ==> s'.h.returned == s.h.returned + s.h.hand && |s.h.hand| == 1
  {
  }

  lemma ThiefReturns(s: State, i: nat)
    requires Spec(Window(s), Meaning(s, ByThief(i)), Window(ThiefStep(s, i)))
    ensures var s' := ThiefStep(s, i);
      s'.h.returned != s.h.returned ==> Window(s) != [] && s'.h.returned == s.h.returned + [Window(s)[0]]
  {
  }

  /** Slot integrity: whatever array a caller reads, possibly one that `expand` has since replaced, an owner
      returns the item it removed at its own linearisation point, and a thief the oldest item of the window. */
  lemma ReturnsWhatItRemoved(restored: bool, junk: int -> Item, run: seq<Choice>, c: Choice)
    ensures var s := After(restored, junk, run); var s' := Step(restored, s, c);
      && (c.ByOwner? && s'.h.returned != s.h.returned ==> s'.h.returned == s.h.returned + s.h.hand && |s.h.hand| == 1)
      && (c.ByThief? && s'.h.returned != s.h.returned ==>
            Window(s) != [] && s'.h.returned == s.h.returned + [Window(s)[0]])
  {
    Safe(restored, junk, run);
    var s := After(restored, junk, run);
    StepKeeps(restored, s, c);
    ShapeHands(s);
    match c {
      case ByOwner(call, junk') => OwnerReturns(restored, s, call, junk');
      case ByThief(i) => ThiefReturns(s, i);
    }
  }

  ghost predicate InBounds(s: State, q: nat, i: int) {
    q < |s.arrs| && s.arrs[q].Ok() && 0 <= i
  }

  /** An access to a slot is always inside an allocated array, at a non-negative logical index. */
  lemma AccessesInBounds(restored: bool, junk: int -> Item, run: seq<Choice>)
    ensures var s := After(restored, junk, run);
      && (s.owner.TakeSlot? || s.owner.PushSlot? ==> InBounds(s, s.owner.q, s.owner.b))
      && (forall i :: i in s.thieves && s.thieves[i].StealSlot? ==> InBounds(s, s.thieves[i].q, s.thieves[i].t))
  {
    Safe(restored, junk, run);
    ShapeInBounds(After(restored, junk, run));
  }

  lemma ShapeInBounds(s: State)
    requires Shape(s)
    ensures s.owner.TakeSlot? || s.owner.PushSlot? ==> InBounds(s, s.owner.q, s.owner.b)
    ensures forall i :: i in s.thieves && s.thieves[i].StealSlot? ==> InBounds(s, s.thieves[i].q, s.thieves[i].t)
  {
    forall i | i in s.thieves ensures ThiefOk(s, s.thieves[i]) { }
  }

  lemma {:induction false} KeptMember(pushed: seq<Item>, skewed: seq<bool>, x: Item)
    requires |pushed| == |skewed|
    requires forall i :: 0 <= i < |pushed| ==> pushed[i].id == i
    ensures multiset(Kept(pushed, skewed))[x] ==
      if 0 <= x.id < |pushed| && pushed[x.id] == x && !skewed[x.id] then 1 else 0
  {
    if pushed != [] {
      var n := |pushed| - 1;
      KeptMember(pushed[..n], skewed[..n], x);
    }
  }

  /** At most once, and loss exactly.  Count any item over what was returned, what the owner holds and what is
      still in the window: it is there exactly once if it was pushed and its push did not begin at
      bottom == top-1, and not at all otherwise. */
  lemma ExactlyOnceUnlessSkewed(restored: bool, junk: int -> Item, run: seq<Choice>, x: Item)
    ensures var s := After(restored, junk, run);
      && |s.h.skewed| == |s.h.pushed|
      && multiset(s.h.returned)[x] + multiset(s.h.hand)[x] + multiset(Window(s))[x] ==
           (if 0 <= x.id < |s.h.pushed| && s.h.pushed[x.id] == x && !s.h.skewed[x.id] then 1 else 0)
  {
    Safe(restored, junk, run);
    var s := After(restored, junk, run);
    KeptMember(s.h.pushed, s.h.skewed, x);
    var kept := multiset(Kept(s.h.pushed, s.h.skewed));
    assert kept[x] == multiset(s.h.popped)[x] + multiset(Window(s))[x];
    assert multiset(s.h.popped)[x] == multiset(s.h.returned)[x] + multiset(s.h.hand)[x];
  }

  /** The restored variant never loses anything: pushed items are the returned ones, the one in the owner's
      hand and the window. */
  lemma RestoredLosesNothing(junk: int -> Item, run: seq<Choice>)
    ensures var s := After(true, junk, run);
      multiset(s.h.pushed) == multiset(s.h.returned) + multiset(s.h.hand) + multiset(Window(s))
  {
    Safe(true, junk, run);
    var s := After(true, junk, run);
    KeptAll(s.h.pushed, s.h.skewed);
  }

  lemma {:induction false} KeptAll(pushed: seq<Item>, skewed: seq<bool>)
    requires |pushed| == |skewed| && forall i :: 0 <= i < |skewed| ==> !skewed[i]
    ensures Kept(pushed, skewed) == pushed
  {
    if pushed != [] { KeptAll(pushed[..|pushed| - 1], skewed[..|pushed| - 1]); }
  }

  /** A push finds bottom == top-1 exactly when the flag is set. */
  lemma SkewIsFlagged(restored: bool, junk: int -> Item, run: seq<Choice>)
    ensures var s := After(restored, junk, run);
      s.owner.Idle? || s.owner.PushRead? ==> (s.bottom == s.top - 1 <==> s.h.lostCas)
  {
    Safe(restored, junk, run);
  }

  /** The choice completes a call of the owner, and there, a take whose CAS fails. */
  ghost predicate Completes(s: State, c: Choice) {
    c.ByOwner? && !s.owner.Idle? && Step(false, s, c).owner.Idle?
  }

  ghost predicate LosesCas(s: State, c: Choice) { c.ByOwner? && s.owner.TakeCas? && s.top != s.owner.t }

  ghost predicate CompletesAt(junk: int -> Item, run: seq<Choice>, j: int) {
    0 <= j < |run| && Completes(After(false, junk, run[..j]), run[j])
  }

  ghost predicate LosesAt(junk: int -> Item, run: seq<Choice>, j: int) {
    0 <= j < |run| && LosesCas(After(false, junk, run[..j]), run[j])
  }

  /** The owner's latest completed call is a take that lost its CAS. */
  ghost predicate LatestLost(junk: int -> Item, run: seq<Choice>) {
    exists j :: LosesAt(junk, run, j) && forall l :: j < l < |run| ==> !CompletesAt(junk, run, l)
  }

  lemma FlagStep(s: State, c: Choice)
    ensures Step(false, s, c).h.lostCas <==> LosesCas(s, c) || (s.h.lostCas && !Completes(s, c))
    ensures LosesCas(s, c) ==> Completes(s, c)
  {
  }

  lemma LatestStep(junk: int -> Item, run: seq<Choice>, c: Choice)
    ensures var s := After(false, junk, run);
      LatestLost(junk, run + [c]) <==> LosesCas(s, c) || (LatestLost(junk, run) && !Completes(s, c))
  {
    var run' := run + [c];
    assert run'[..|run|] == run;
    forall j | 0 <= j < |run|
      ensures (LosesAt(junk, run', j) <==> LosesAt(junk, run, j))
           && (CompletesAt(junk, run', j) <==> CompletesAt(junk, run, j))
    {
      assert run'[..j] == run[..j];
    }
    var s := After(false, junk, run);
    assert LosesAt(junk, run', |run|) <==> LosesCas(s, c);
    assert CompletesAt(junk, run', |run|) <==> Completes(s, c);
  }

  lemma {:induction false} FlagIsLatestLost(junk: int -> Item, run: seq<Choice>)
    ensures After(false, junk, run).h.lostCas <==> LatestLost(junk, run)
  {
    if run != [] {
      var before, c := run[..|run| - 1], run[|run| - 1];
      assert run == before + [c];
      FlagIsLatestLost(junk, before);
      FlagStep(After(false, junk, before), c);
      LatestStep(junk, before, c);
    }
  }

  /** As written, a push finds bottom == top-1 if and only if the owner's latest completed call is a take that lost its
      CAS; in the restored variant no push ever does. */
  lemma SkewIsLostCas(junk: int -> Item, run: seq<Choice>)
    ensures var s := After(false, junk, run);
      s.owner.Idle? || s.owner.PushRead? ==> (s.bottom == s.top - 1 <==> LatestLost(junk, run))
    ensures var s := After(true, junk, run);
      s.owner.Idle? || s.owner.PushRead? ==> s.bottom != s.top - 1
  {
    SkewIsFlagged(false, junk, run);
    FlagIsLatestLost(junk, run);
    SkewIsFlagged(true, junk, run);
    Safe(true, junk, run);
  }

  // ---------------------------------------------------------------- the loss as written, on a concrete run

  ghost function Repeat(s: State, c: Choice, n: nat): State {
    if n == 0 then s else Step(false, Repeat(s, c, n - 1), c)
  }

  lemma AfterSnoc(junk: int -> Item, run: seq<Choice>, c: Choice)
    ensures After(false, junk, run + [c]) == Step(false, After(false, junk, run), c)
  {
    assert (run + [c])[..|run|] == run;
  }

  lemma {:induction false} AfterRepeat(junk: int -> Item, run: seq<Choice>, c: Choice, n: nat)
    ensures After(false, junk, run + seq(n, _ => c)) == Repeat(After(false, junk, run), c, n)
  {
    if n == 0 {
      assert run + seq(n, _ => c) == run;
    } else {
      AfterRepeat(junk, run, c, n - 1);
      AfterSnoc(junk, run + seq(n - 1, _ => c), c);
      assert run + seq(n - 1, _ => c) + [c] == run + seq(n, _ => c);
    }
  }

  lemma RepeatOnce(s: State, c: Choice)
    ensures Repeat(s, c, 1) == Step(false, s, c)
  {
    assert Repeat(s, c, 0) == s;
  }

  lemma RepeatNext(s: State, c: Choice, n: nat, a: State)
    requires Repeat(s, c, n) == a
    ensures Repeat(s, c, n + 1) == Step(false, a, c)
  {
  }

  /** Six steps, given the five states between them. */
  lemma RepeatSix(s: State, c: Choice, s1: State, s2: State, s3: State, s4: State, s5: State, n: nat)
    requires n == 6 && Step(false, s, c) == s1 && Step(false, s1, c) == s2 && Step(false, s2, c) == s3
    requires Step(false, s3, c) == s4 && Step(false, s4, c) == s5
    ensures Repeat(s, c, n) == Step(false, s5, c)
  {
    RepeatOnce(s, c);
    RepeatNext(s, c, n - 5, s1);
    RepeatNext(s, c, n - 4, s2);
    RepeatNext(s, c, n - 3, s3);
    RepeatNext(s, c, n - 2, s4);
    RepeatNext(s, c, n - 1, s5);
  }

  /** A whole push with no expansion. */
  lemma PushAlone(s: State, task: int, junk: int -> Item)
    requires s.owner.Idle? && s.wsq < |s.arrs| && s.bottom - s.top < s.arrs[s.wsq].size - 1
    ensures var x := Item(task, |s.h.pushed|); var m := s.bottom == s.top - 1;
      Repeat(s, ByOwner(Push(task), junk), 6) ==
        s.(bottom := s.bottom + 1, arrs := s.arrs[s.wsq := s.arrs[s.wsq].Put(s.bottom, x)],
           h := s.h.(mark := m, pushed := s.h.pushed + [x], skewed := s.h.skewed + [m], lostCas := false))
  {
    var c := ByOwner(Push(task), junk);
    var x := Item(task, |s.h.pushed|);
    var s1 := s.(owner := PushRead(x));
    assert Step(false, s, c) == s1;
    var s4 := PushToSlot(s1, c);
    RepeatSix(s, c, s1, PushStep(s1), PushStep(PushStep(s1)), s4, PushStep(s4), 6);
    PushFinish(s, s4, x, c);
  }

  lemma PushFinish(s: State, s4: State, x: Item, c: Choice)
    requires s.owner.Idle? && s.wsq < |s.arrs| && c.ByOwner?
    requires s4 == s.(owner := PushSlot(x, s.bottom, s.wsq), h := s.h.(mark := s.bottom == s.top - 1))
    ensures var m := s.bottom == s.top - 1;
      Step(false, PushStep(s4), c) ==
        s.(bottom := s.bottom + 1, arrs := s.arrs[s.wsq := s.arrs[s.wsq].Put(s.bottom, x)],
           h := s.h.(mark := m, pushed := s.h.pushed + [x], skewed := s.h.skewed + [m], lostCas := false))
  {
    assert PushStep(s4).owner == PushBottom(x, s.bottom);
  }

  lemma PushToSlot(s1: State, c: Choice) returns (s4: State)
    requires s1.owner.PushRead? && c.ByOwner?
    requires s1.wsq < |s1.arrs| && s1.bottom - s1.top < s1.arrs[s1.wsq].size - 1
    ensures s4 == PushStep(PushStep(PushStep(s1)))
    ensures s4 == s1.(owner := PushSlot(s1.owner.x, s1.bottom, s1.wsq), h := s1.h.(mark := s1.bottom == s1.top - 1))
    ensures Step(false, s1, c) == PushStep(s1) && Step(false, PushStep(s1), c) == PushStep(PushStep(s1))
    ensures Step(false, PushStep(PushStep(s1)), c) == s4
    ensures Step(false, s4, c) == PushStep(s4) && PushStep(s4).owner == PushBottom(s1.owner.x, s1.bottom)
    ensures Step(false, PushStep(s4), c) == PushStep(PushStep(s4))
  {
    var s2 := PushStep(s1);
    assert s2.owner == PushTop(s1.owner.x, s1.bottom);
    var s3 := PushStep(s2);
    assert s3.owner == PushArr(s1.owner.x, s1.bottom, s1.top);
    s4 := PushStep(s3);
    Pushes(s1, c);
    Pushes(s2, c);
    Pushes(s3, c);
    Pushes(s4, c);
    Pushes(PushStep(s4), c);
  }

  lemma Pushes(s: State, c: Choice)
    requires c.ByOwner?
    requires s.owner.PushRead? || s.owner.PushTop? || s.owner.PushArr? || s.owner.PushSlot? || s.owner.PushBottom?
    ensures Step(false, s, c) == PushStep(s)
  {
  }

  /** A take of the last item, up to its CAS. */
  lemma TakeLastAlone(s: State, junk: int -> Item)
    requires s.owner.Idle? && s.bottom - 1 == s.top
    ensures Repeat(s, ByOwner(Take, junk), 6) ==
      s.(bottom := s.top, owner := TakeCas(s.top, s.Cell(s.top)))
  {
    var c := ByOwner(Take, junk);
    var s1, s2, s3 := s.(owner := TakeRead), s.(owner := TakeArr(s.top)), s.(owner := TakeDec(s.top, s.wsq));
    var s4 := s.(bottom := s.top, owner := TakeTop(s.top, s.wsq));
    var s5 := s.(bottom := s.top, owner := TakeSlot(s.top, s.wsq, s.top));
    TakeToSlot(s, c);
    RepeatSix(s, c, s1, s2, s3, s4, s5, 6);
  }

  lemma TakeToSlot(s: State, c: Choice)
    requires s.owner.Idle? && s.bottom - 1 == s.top && c.ByOwner? && c.call == Take
    ensures Step(false, s, c) == s.(owner := TakeRead)
    ensures Step(false, s.(owner := TakeRead), c) == s.(owner := TakeArr(s.top))
    ensures Step(false, s.(owner := TakeArr(s.top)), c) == s.(owner := TakeDec(s.top, s.wsq))
    ensures Step(false, s.(owner := TakeDec(s.top, s.wsq)), c) == s.(bottom := s.top, owner := TakeTop(s.top, s.wsq))
    ensures Step(false, s.(bottom := s.top, owner := TakeTop(s.top, s.wsq)), c)
         == s.(bottom := s.top, owner := TakeSlot(s.top, s.wsq, s.top))
    ensures Step(false, s.(bottom := s.top, owner := TakeSlot(s.top, s.wsq, s.top)), c)
         == s.(bottom := s.top, owner := TakeCas(s.top, s.Cell(s.top)))
  {
  }

  function WithThief(s: State, i: nat, p: Thief): State {
    s.(thieves := s.thieves[i := p])
  }

  lemma WithThiefTwice(s: State, i: nat, p: Thief, p': Thief)
    ensures WithThief(WithThief(s, i, p), i, p') == WithThief(s, i, p')
  {
    assert s.thieves[i := p][i := p'] == s.thieves[i := p'];
  }

  /** One step of a thief that does not win a CAS. */
  lemma ThiefMoves(s: State, i: nat, p: Thief, p': Thief)
    requires ThiefStep(WithThief(s, i, p), i) == WithThief(WithThief(s, i, p), i, p')
    ensures Step(false, WithThief(s, i, p), ByThief(i)) == WithThief(s, i, p')
  {
    WithThiefTwice(s, i, p, p');
  }

  /** A steal up to its CAS. */
  lemma StealAlone(s: State, i: nat)
    requires i !in s.thieves && s.top < s.bottom
    ensures Repeat(s, ByThief(i), 4) == WithThief(s, i, StealCas(s.top, s.Cell(s.top)))
  {
    var c := ByThief(i);
    var p1, p2, p3 := StealBottom(s.top), StealArr(s.top, s.bottom), StealSlot(s.top, s.wsq);
    assert Repeat(s, c, 1) == Step(false, Repeat(s, c, 0), c) == WithThief(s, i, p1);
    ThiefMoves(s, i, p1, p2);
    assert Repeat(s, c, 2) == WithThief(s, i, p2);
    ThiefMoves(s, i, p2, p3);
    assert Repeat(s, c, 3) == WithThief(s, i, p3);
    ThiefMoves(s, i, p3, StealCas(s.top, s.Cell(s.top)));
  }

  /** The two compare-and-swaps of the race: the thief's wins, the owner's loses. */
  lemma BothSwap(s: State, junk: int -> Item, x: Item)
    requires s.top == 0 && s.owner == TakeCas(0, x) && s.thieves == map[0 := StealCas(0, x)]
    ensures var s4 := Step(false, s, ByThief(0));
      Step(false, s4, ByOwner(Take, junk)) ==
        s.(top := 1, owner := Idle, thieves := map[0 := Rest],
           h := s.h.(lostCas := true, popped := s.h.popped + [x], returned := s.h.returned + [x]))
  {
    var s4 := Step(false, s, ByThief(0));
    assert s4.thieves == map[0 := Rest];
  }

  /** The losing race, from a deque holding one item: the thief reads it, the owner's take reaches its CAS,
      the thief's CAS wins and the owner's loses. */
  lemma RaceLost(s: State, junk: int -> Item)
    requires s.owner.Idle? && s.thieves == map[] && s.top == 0 && s.bottom == 1
    ensures
      var s2 := Repeat(s, ByThief(0), 4);
      var s3 := Repeat(s2, ByOwner(Take, junk), 6);
      var s4 := Repeat(s3, ByThief(0), 1);
      var s5 := Repeat(s4, ByOwner(Take, junk), 1);
      s5 == s.(top := 1, bottom := 0, owner := Idle, thieves := map[0 := Rest],
              h := s.h.(lostCas := true, popped := s.h.popped + [s.Cell(0)], returned := s.h.returned + [s.Cell(0)]))
  {
    var x := s.Cell(0);
    StealAlone(s, 0);
    var s2 := WithThief(s, 0, StealCas(0, x));
    TakeLastAlone(s2, junk);
    var s3 := s2.(bottom := 0, owner := TakeCas(0, x));
    RepeatOnce(s3, ByThief(0));
    RepeatOnce(Step(false, s3, ByThief(0)), ByOwner(Take, junk));
    BothSwap(s3, junk, x);
  }

  /** As written, "pushed = returned + window" is false: one push, one steal racing one take, one more push.
      The second task is gone although every call has returned. */
  lemma LosesATask(junk: int -> Item)
    ensures exists run: seq<Choice> ::
      var s := After(false, junk, run);
      && s.owner.Idle? && (forall i :: i in s.thieves ==> s.thieves[i].Rest?)
      && s.h.pushed == [Item(7, 0), Item(8, 1)] && s.h.returned == [Item(7, 0)] && s.h.hand == [] && Window(s) == []
  {
    var push7, push8, take, thief := ByOwner(Push(7), junk), ByOwner(Push(8), junk), ByOwner(Take, junk), ByThief(0);
    var s0 := Init(junk);
    PushAlone(s0, 7, junk);
    var s1 := Repeat(s0, push7, 6);
    assert s1.Cell(0) == Item(7, 0) by { PutAt(s0.arrs[0], 0, Item(7, 0), 0); }
    RaceLost(s1, junk);
    var s5 := Repeat(Repeat(Repeat(Repeat(s1, thief, 4), take, 6), thief, 1), take, 1);
    PushAlone(s5, 8, junk);
    var s6 := Repeat(s5, push8, 6);
    var run := LosingRun(junk);
    assert s6.h.pushed == [Item(7, 0), Item(8, 1)] && s6.h.returned == [Item(7, 0)] && s6.h.hand == [];
    assert s6.thieves == map[0 := Rest] && s6.top == 1 && s6.bottom == 1 && s6.owner == Idle;
    assert Window(s6) == [];
    assert After(false, junk, run) == s6;
  }

  lemma LosingRun(junk: int -> Item) returns (run: seq<Choice>)
    ensures After(false, junk, run) ==
      Repeat(Repeat(Repeat(Repeat(Repeat(Repeat(Init(junk), ByOwner(Push(7), junk), 6), ByThief(0), 4),
        ByOwner(Take, junk), 6), ByThief(0), 1), ByOwner(Take, junk), 1), ByOwner(Push(8), junk), 6)
  {
    var push7, push8, take, thief := ByOwner(Push(7), junk), ByOwner(Push(8), junk), ByOwner(Take, junk), ByThief(0);
    run := [];
    AfterRepeat(junk, run, push7, 6);
    run := run + seq(6, _ => push7);
    AfterRepeat(junk, run, thief, 4);
    run := run + seq(4, _ => thief);
    AfterRepeat(junk, run, take, 6);
    run := run + seq(6, _ => take);
    AfterRepeat(junk, run, thief, 1);
    run := run + seq(1, _ => thief);
    AfterRepeat(junk, run, take, 1);
    run := run + seq(1, _ => take);
    AfterRepeat(junk, run, push8, 6);
    run := run + seq(6, _ => push8);
  }
}
