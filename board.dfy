/**
 * The state of the assembly-line component, `assemblyObject`, as a value, and
 * the three things the component does to it (build the stages, add the pending
 * item, move an item) as functions on that value. The class in module
 * AssemblyLine performs the same steps in place and is proved equal to these.
 *
 * Storage order is push order: every insertion appends to the end of a stage's
 * `content`. The page shows each stage newest first, i.e. `content` reversed.
 */
module AssemblyBoard {
  import opened StageList

  datatype Option<T> = None | Some(value: T)

  /** One column of the board: its label (`label` in the source, a reserved word here) and its items, oldest first. */
  datatype Stage = Stage(name: string, content: seq<string>)

  /** `assemblyObject`: the pending input text and the stages, in order. */
  datatype Board = Board(addItem: string, stageObject: seq<Stage>)

  /** The way an item is moved: a primary click (`"left"`) sends it forward, any other event type back. */
  datatype Direction = Forward | Backward

  function DirectionOf(eventType: string): (d: Direction)
    ensures d == Forward <==> eventType == "left"
  {
    if eventType == "left" then Forward else Backward
  }

  /** `content.push(item)` on one stage. */
  function Push(st: Stage, item: string): Stage
  {
    Stage(st.name, st.content + [item])
  }

  /** The stages `ngOnInit` appends: one per label, in order, each with no items. */
  function InitStages(labels: seq<string>): (r: seq<Stage>)
    ensures |r| == |labels|
    ensures forall i :: 0 <= i < |labels| ==> r[i].name == labels[i] && r[i].content == []
  {
    if labels == [] then [] else [Stage(labels[0], [])] + InitStages(labels[1..])
  }

  /** Every item on the board, with its multiplicity. */
  function Items(st: seq<Stage>): multiset<string>
  {
    if st == [] then multiset{} else multiset(st[0].content) + Items(st[1..])
  }

  /** The number of items on the board, counted stage by stage. */
  function Total(st: seq<Stage>): (n: nat)
    ensures n == |Items(st)|
  {
    if st == [] then 0 else |st[0].content| + Total(st[1..])
  }

  /** A freshly initialised board holds no item at all. */
  lemma {:induction false} InitStagesEmpty(labels: seq<string>)
    ensures Items(InitStages(labels)) == multiset{}
    ensures Total(InitStages(labels)) == 0
  {
    if labels != [] {
      InitStagesEmpty(labels[1..]);
    }
  }

  /** A stage's items are part of the board's items. */
  lemma {:induction false} StageItemsIncluded(st: seq<Stage>, i: nat)
    requires i < |st|
    ensures multiset(st[i].content) <= Items(st)
  {
    if i > 0 {
      StageItemsIncluded(st[1..], i - 1);
    }
  }

  /** Replacing stage `i` swaps its copies of `y` for the new stage's copies and leaves the rest. */
  lemma {:induction false} ItemsUpdate(st: seq<Stage>, i: nat, s: Stage, y: string)
    requires i < |st|
    ensures Items(st[i := s])[y] + multiset(st[i].content)[y] == Items(st)[y] + multiset(s.content)[y]
  {
    if i == 0 {
      assert st[i := s][1..] == st[1..];
    } else {
      assert st[i := s][1..] == st[1..][i - 1 := s];
      ItemsUpdate(st[1..], i - 1, s, y);
    }
  }

  /** Replacing stage `i` changes the item count by the difference in that stage's length. */
  lemma {:induction false} TotalUpdate(st: seq<Stage>, i: nat, s: Stage)
    requires i < |st|
    ensures Total(st[i := s]) == Total(st) - |st[i].content| + |s.content|
  {
    if i == 0 {
      assert st[i := s][1..] == st[1..];
    } else {
      assert st[i := s][1..] == st[1..][i - 1 := s];
      TotalUpdate(st[1..], i - 1, s);
    }
  }

  /**
   * `assemblyAddItem`: a non-empty pending string is pushed onto stage 0 and the
   * buffer is cleared; an empty one changes nothing. With a non-empty buffer the
   * source reads `stageObject[0]`, so a board without stages is excluded then.
   */
  function AddItem(b: Board): (r: Board)
    requires b.addItem != "" ==> |b.stageObject| > 0
    ensures b.addItem == "" ==> r == b
    ensures b.addItem != "" ==>
      && r.addItem == ""
      && |r.stageObject| == |b.stageObject|
      && r.stageObject[0].name == b.stageObject[0].name
      && r.stageObject[0].content == b.stageObject[0].content + [b.addItem]
      && forall j :: 0 < j < |b.stageObject| ==> r.stageObject[j] == b.stageObject[j]
  {
    if b.addItem == "" then b
    else Board("", b.stageObject[0 := Push(b.stageObject[0], b.addItem)])
  }

  /** Adding puts exactly the pending string on the board; nothing else appears or disappears. */
  lemma AddItemItems(b: Board)
    requires b.addItem != ""
    requires |b.stageObject| > 0
    ensures Items(AddItem(b).stageObject) == Items(b.stageObject) + multiset{b.addItem}
    ensures Total(AddItem(b).stageObject) == Total(b.stageObject) + 1
  {
    var pushed := Push(b.stageObject[0], b.addItem);
    TotalUpdate(b.stageObject, 0, pushed);
    assert multiset(pushed.content) == multiset(b.stageObject[0].content) + multiset{b.addItem};
    forall y
      ensures Items(AddItem(b).stageObject)[y] == (Items(b.stageObject) + multiset{b.addItem})[y]
    {
      ItemsUpdate(b.stageObject, 0, pushed, y);
    }
  }

  /** The neighbour a move re-inserts into, or None when the item leaves the board. */
  function Target(dir: Direction, index: nat, n: nat): Option<nat>
  {
    match dir
    case Forward => if index + 1 < n then Some(index + 1) else None
    case Backward => if index != 0 then Some(index - 1) else None
  }

  /** Whether a move from stage `index` of `n` stages lands on the board again. */
  predicate Lands(dir: Direction, index: nat, n: nat)
  {
    (dir == Forward && index + 1 < n) || (dir == Backward && index > 0)
  }

  /**
   * `stageItem`: remove every copy of `data` from stage `index`, then push one
   * copy onto the next stage (Forward) or the previous one (Backward); past
   * either end the item leaves the board. The source dereferences
   * `stageObject[index]`, so `index` must name a stage.
   */
  function Move(b: Board, dir: Direction, data: string, index: nat): (r: Board)
    requires index < |b.stageObject|
    ensures r.addItem == b.addItem
    ensures |r.stageObject| == |b.stageObject|
    ensures forall j :: 0 <= j < |b.stageObject| ==> r.stageObject[j].name == b.stageObject[j].name
    ensures r.stageObject[index].content == Without(b.stageObject[index].content, data)
    ensures dir == Forward && index + 1 < |b.stageObject| ==>
      r.stageObject[index + 1].content == b.stageObject[index + 1].content + [data]
    ensures dir == Backward && index > 0 ==>
      r.stageObject[index - 1].content == b.stageObject[index - 1].content + [data]
    ensures forall j ::
      (0 <= j < |b.stageObject| && j != index
       && (dir == Forward ==> j != index + 1) && (dir == Backward ==> j != index - 1))
      ==> r.stageObject[j] == b.stageObject[j]
  {
    var removed := Filtered(b.stageObject, data, index);
    match Target(dir, index, |b.stageObject|)
    case None => b.(stageObject := removed)
    case Some(t) => b.(stageObject := removed[t := Push(removed[t], data)])
  }

  /** What stays of the source stage is its other items in their old relative order. */
  lemma MoveKeepsSourceOrder(b: Board, dir: Direction, data: string, index: nat)
    requires index < |b.stageObject|
    ensures SubSeq(Move(b, dir, data, index).stageObject[index].content, b.stageObject[index].content)
  {
    WithoutKeepsOrder(b.stageObject[index].content, data);
  }

  /** The stages right after the filter step of a move, before anything is pushed. */
  function Filtered(st: seq<Stage>, data: string, index: nat): seq<Stage>
    requires index < |st|
  {
    st[index := Stage(st[index].name, Without(st[index].content, data))]
  }

  /** A move is the filter step followed by at most one push onto the target stage. */
  lemma MoveSteps(b: Board, dir: Direction, data: string, index: nat)
    requires index < |b.stageObject|
    ensures var removed := Filtered(b.stageObject, data, index);
      Move(b, dir, data, index).stageObject ==
        match Target(dir, index, |b.stageObject|)
        case None => removed
        case Some(t) => removed[t := Push(removed[t], data)]
  {
  }

  /**
   * A move takes every copy of `data` off the source stage and puts back one
   * copy when the item lands on a neighbour; no other item is created or lost.
   */
  lemma MoveItems(b: Board, dir: Direction, data: string, index: nat)
    requires index < |b.stageObject|
    ensures forall y :: y != data ==> Items(Move(b, dir, data, index).stageObject)[y] == Items(b.stageObject)[y]
    ensures multiset(b.stageObject[index].content)[data] <= Items(b.stageObject)[data]
    ensures Items(Move(b, dir, data, index).stageObject)[data]
      == Items(b.stageObject)[data] - multiset(b.stageObject[index].content)[data]
         + (if Lands(dir, index, |b.stageObject|) then 1 else 0)
  {
    var st := b.stageObject;
    var removed := Filtered(st, data, index);
    MoveSteps(b, dir, data, index);
    StageItemsIncluded(st, index);
    forall y
      ensures Items(removed)[y] + multiset(st[index].content)[y] == Items(st)[y] + multiset(removed[index].content)[y]
    {
      ItemsUpdate(st, index, removed[index], y);
    }
    match Target(dir, index, |st|)
    case None =>
    case Some(t) =>
      var pushed := Push(removed[t], data);
      assert multiset(pushed.content) == multiset(removed[t].content) + multiset{data};
      forall y
        ensures Items(removed[t := pushed])[y] + multiset(removed[t].content)[y] == Items(removed)[y] + multiset(pushed.content)[y]
      {
        ItemsUpdate(removed, t, pushed, y);
      }
  }

  /**
   * The item count after a move: it drops by the number of copies of `data`
   * the source stage held, and rises by one when the item lands on a neighbour.
   * A forward move from the last stage or a backward move from stage 0 thus
   * takes every copy off the board.
   */
  lemma MoveTotal(b: Board, dir: Direction, data: string, index: nat)
    requires index < |b.stageObject|
    ensures Total(Move(b, dir, data, index).stageObject)
      == Total(b.stageObject) - multiset(b.stageObject[index].content)[data]
         + (if Lands(dir, index, |b.stageObject|) then 1 else 0)
  {
    var st := b.stageObject;
    var removed := Filtered(st, data, index);
    MoveSteps(b, dir, data, index);
    TotalUpdate(st, index, removed[index]);
    match Target(dir, index, |st|)
    case None =>
    case Some(t) =>
      TotalUpdate(removed, t, Push(removed[t], data));
  }

  /** No item label occurs twice anywhere on the board. */
  ghost predicate Distinct(st: seq<Stage>)
  {
    forall y :: Items(st)[y] <= 1
  }

  /**
   * Adding does not check for an existing label: entering a label that is
   * already on the board puts a second copy of it there.
   */
  lemma AddItemMayRepeat()
    ensures var b := Board("x", [Stage("A", ["x"])]);
      Distinct(b.stageObject) && !Distinct(AddItem(b).stageObject)
  {
    var b := Board("x", [Stage("A", ["x"])]);
    assert Items(b.stageObject) == multiset{"x"};
    AddItemItems(b);
    assert Items(AddItem(b).stageObject)["x"] == 2;
  }

  /**
   * Moving an item that is on its source stage keeps labels unique across the
   * board: the one copy is taken off before one copy is put back.
   */
  lemma MovePreservesDistinct(b: Board, dir: Direction, data: string, index: nat)
    requires index < |b.stageObject|
    requires Distinct(b.stageObject)
    requires data in b.stageObject[index].content
    ensures Distinct(Move(b, dir, data, index).stageObject)
  {
    MoveItems(b, dir, data, index);
  }

  /**
   * Sending the newest item of stage `i` forward and then back again restores
   * the board exactly, provided it occurs once in stage `i` and not at all in
   * stage `i + 1`.
   */
  lemma ForwardThenBackward(b: Board, data: string, i: nat)
    requires i + 1 < |b.stageObject|
    requires |b.stageObject[i].content| > 0
    requires b.stageObject[i].content[|b.stageObject[i].content| - 1] == data
    requires multiset(b.stageObject[i].content)[data] == 1
    requires data !in b.stageObject[i + 1].content
    ensures Move(Move(b, Forward, data, i), Backward, data, i + 1) == b
  {
    var c := b.stageObject[i].content;
    var front := c[..|c| - 1];
    assert c == front + [data];
    assert data !in front by {
      assert multiset(c) == multiset(front) + multiset{data};
    }
    WithoutAppend(front, [data], data);
    WithoutAbsent(front, data);
    WithoutAbsent(b.stageObject[i + 1].content, data);
    WithoutAppend(b.stageObject[i + 1].content, [data], data);
    var m := Move(b, Forward, data, i);
    var r := Move(m, Backward, data, i + 1);
    assert r.stageObject[i] == b.stageObject[i];
    assert r.stageObject[i + 1] == b.stageObject[i + 1];
    assert r.stageObject == b.stageObject;
  }
}
