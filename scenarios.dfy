/**
 * The component's test scenarios, replayed on the model with the stages
 * Idea, Development, Testing and Deployment. The page lists each stage newest
 * first, so what a stage shows is its `content` (push order) reversed; every
 * board below is given as the page shows it, top to bottom.
 */
module Scenarios {
  import opened StageList
  import opened AssemblyBoard

  function Reverse(s: seq<string>): (r: seq<string>)
    ensures |r| == |s|
    ensures forall k :: 0 <= k < |s| ==> r[k] == s[|s| - 1 - k]
  {
    if s == [] then [] else Reverse(s[1..]) + [s[0]]
  }

  /** Typing `text` into the input and pressing Enter. */
  function Enter(b: Board, text: string): (r: Board)
    requires |b.stageObject| > 0
    ensures |r.stageObject| == |b.stageObject|
  {
    AddItem(b.(addItem := text))
  }

  const Line: seq<string> := ["Idea", "Development", "Testing", "Deployment"]

  /**
   * `b` has an empty input and the four stages of Line, which show the given
   * items top to bottom (so each stage stores them in the reverse order).
   */
  predicate Shows(b: Board, idea: seq<string>, development: seq<string>, testing: seq<string>, deployment: seq<string>)
  {
    && b.addItem == ""
    && |b.stageObject| == 4
    && (forall i :: 0 <= i < 4 ==> b.stageObject[i].name == Line[i])
    && b.stageObject[0].content == Reverse(idea)
    && b.stageObject[1].content == Reverse(development)
    && b.stageObject[2].content == Reverse(testing)
    && b.stageObject[3].content == Reverse(deployment)
  }

  /** Right after `ngOnInit`: four empty stages. */
  lemma Initialised()
    ensures Shows(Board("", InitStages(Line)), [], [], [], [])
  {
  }

  /** Entering one item puts it alone in Idea and clears the input. */
  lemma EnterOne(b: Board)
    requires Shows(b, [], [], [], [])
    ensures Shows(Enter(b, "goldenrod"), ["goldenrod"], [], [], [])
  {
  }

  /** The board the move scenarios start from. */
  function Seeded(): Board
  {
    var b0 := Board("", InitStages(Line));
    Enter(Enter(Enter(Enter(b0, "indigo"), "turquoise"), "magenta"), "fuschia")
  }

  /** The four start items are stored in entry order and shown newest first. */
  lemma SeededBoard()
    ensures Seeded().stageObject[0].content == ["indigo", "turquoise", "magenta", "fuschia"]
    ensures Shows(Seeded(), ["fuschia", "magenta", "turquoise", "indigo"], [], [], [])
  {
    var b0 := Board("", InitStages(Line));
    var b1 := Enter(b0, "indigo");
    var b2 := Enter(b1, "turquoise");
    var b3 := Enter(b2, "magenta");
    assert Shows(b1, ["indigo"], [], [], []);
    assert Shows(b2, ["turquoise", "indigo"], [], [], []);
    assert Shows(b3, ["magenta", "turquoise", "indigo"], [], [], []);
  }

  /** Clicking the top item of Idea sends fuschia to Development. */
  lemma FirstItemForward(b: Board)
    requires Shows(b, ["fuschia", "magenta", "turquoise", "indigo"], [], [], [])
    ensures Shows(Move(b, Forward, "fuschia", 0), ["magenta", "turquoise", "indigo"], ["fuschia"], [], [])
  {
    assert b.stageObject[0].content == ["indigo", "turquoise", "magenta"] + ["fuschia"] + [];
    WithoutSingle(["indigo", "turquoise", "magenta"], "fuschia", []);
  }

  /** Then clicking the bottom item of Idea sends indigo to the top of Development. */
  lemma LastItemForward(b: Board)
    requires Shows(b, ["magenta", "turquoise", "indigo"], ["fuschia"], [], [])
    ensures Shows(Move(b, Forward, "indigo", 0), ["magenta", "turquoise"], ["indigo", "fuschia"], [], [])
  {
    assert b.stageObject[0].content == [] + ["indigo"] + ["turquoise", "magenta"];
    WithoutSingle([], "indigo", ["turquoise", "magenta"]);
  }

  /** Entering maroon mid-stream puts it on top of Idea. */
  lemma EnterMidStream(b: Board)
    requires Shows(b, ["magenta", "turquoise"], ["indigo", "fuschia"], [], [])
    ensures Shows(Enter(b, "maroon"), ["maroon", "magenta", "turquoise"], ["indigo", "fuschia"], [], [])
  {
  }

  /** Clicking the middle item of Idea sends magenta to the top of Development. */
  lemma MiddleItemForward(b: Board)
    requires Shows(b, ["maroon", "magenta", "turquoise"], ["indigo", "fuschia"], [], [])
    ensures Shows(Move(b, Forward, "magenta", 0), ["maroon", "turquoise"], ["magenta", "indigo", "fuschia"], [], [])
  {
    assert b.stageObject[0].content == ["turquoise"] + ["magenta"] + ["maroon"];
    WithoutSingle(["turquoise"], "magenta", ["maroon"]);
  }

  /**
   * Right-clicking the middle item of Development sends indigo back to Idea,
   * where it is pushed and therefore shown on top.
   */
  lemma MiddleItemBackward(b: Board)
    requires Shows(b, ["maroon", "turquoise"], ["magenta", "indigo", "fuschia"], [], [])
    ensures Shows(Move(b, Backward, "indigo", 1), ["indigo", "maroon", "turquoise"], ["magenta", "fuschia"], [], [])
  {
    assert b.stageObject[1].content == ["fuschia"] + ["indigo"] + ["magenta"];
    WithoutSingle(["fuschia"], "indigo", ["magenta"]);
  }

  /**
   * Right-clicking fuschia in Development right after the first click puts it
   * back on top of Idea: the board shows what it showed before that click.
   */
  lemma BackToIdea(b: Board)
    requires Shows(b, ["magenta", "turquoise", "indigo"], ["fuschia"], [], [])
    ensures Shows(Move(b, Backward, "fuschia", 1), ["fuschia", "magenta", "turquoise", "indigo"], [], [], [])
  {
    assert b.stageObject[1].content == [] + ["fuschia"] + [];
    WithoutSingle([], "fuschia", []);
  }

  /** Clicking fuschia stage after stage carries it to Deployment and then off the board. */
  lemma ThroughToTheEnd(b: Board)
    requires Shows(b, ["magenta", "turquoise", "indigo"], ["fuschia"], [], [])
    ensures var t := Move(b, Forward, "fuschia", 1);
      var d := Move(t, Forward, "fuschia", 2);
      && Shows(t, ["magenta", "turquoise", "indigo"], [], ["fuschia"], [])
      && Shows(d, ["magenta", "turquoise", "indigo"], [], [], ["fuschia"])
      && Shows(Move(d, Forward, "fuschia", 3), ["magenta", "turquoise", "indigo"], [], [], [])
  {
    assert ["fuschia"] == [] + ["fuschia"] + [];
    WithoutSingle([], "fuschia", []);
  }

  /** Right-clicking the top item of Idea takes fuschia off the board. */
  lemma OffIdea(b: Board)
    requires Shows(b, ["fuschia", "magenta", "turquoise", "indigo"], [], [], [])
    ensures Shows(Move(b, Backward, "fuschia", 0), ["magenta", "turquoise", "indigo"], [], [], [])
  {
    assert b.stageObject[0].content == ["indigo", "turquoise", "magenta"] + ["fuschia"] + [];
    WithoutSingle(["indigo", "turquoise", "magenta"], "fuschia", []);
  }
}
