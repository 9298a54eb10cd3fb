/**
 * `AssemblyLineComponent` as a class: its `stages` input and its
 * `assemblyObject` state, updated in place by `ngOnInit`, `assemblyAddItem`
 * and `stageItem`. Each method is proved to leave exactly the state that the
 * corresponding function of module AssemblyBoard computes from the old state.
 */
module AssemblyLine {
  import opened StageList
  import opened AssemblyBoard

  /** The DOM event handed to `stageItem`; only whether its default action was suppressed is kept. */
  class Event {
    var defaultPrevented: bool

    constructor ()
      ensures !defaultPrevented
    {
      defaultPrevented := false;
    }

    method PreventDefault()
      modifies this
      ensures defaultPrevented
    {
      defaultPrevented := true;
    }
  }

  class AssemblyLineComponent {
    /** The stage labels bound by the embedding page. */
    var stages: seq<string>
    /** The pending input and the board's stages. */
    var assemblyObject: Board

    /** A new component: the bound labels, an empty pending input and no stages yet. */
    constructor (stages: seq<string>)
      ensures this.stages == stages
      ensures assemblyObject == Board("", [])
    {
      this.stages := stages;
      assemblyObject := Board("", []);
    }

    /** Appends one empty stage per bound label, in the labels' order. */
    method NgOnInit()
      modifies this`assemblyObject
      ensures assemblyObject.addItem == old(assemblyObject.addItem)
      ensures assemblyObject.stageObject == old(assemblyObject.stageObject) + InitStages(stages)
    {
      for i := 0 to |stages|
        invariant assemblyObject.addItem == old(assemblyObject.addItem)
        invariant assemblyObject.stageObject == old(assemblyObject.stageObject) + InitStages(stages[..i])
      {
        assert InitStages(stages[..i + 1]) == InitStages(stages[..i]) + [Stage(stages[i], [])];
        assemblyObject := assemblyObject.(stageObject := assemblyObject.stageObject + [Stage(stages[i], [])]);
      }
      assert stages[..|stages|] == stages;
    }

    /**
     * Pushes the pending input onto the first stage and clears it, unless it is
     * empty. A non-empty input needs a first stage to push onto.
     */
    method AssemblyAddItem()
      requires assemblyObject.addItem != "" ==> |assemblyObject.stageObject| > 0
      modifies this`assemblyObject
      ensures assemblyObject == AddItem(old(assemblyObject))
    {
      if assemblyObject.addItem != "" {
        var first := assemblyObject.stageObject[0];
        first := first.(content := first.content + [assemblyObject.addItem]);
        assemblyObject := assemblyObject.(stageObject := assemblyObject.stageObject[0 := first]);
        assemblyObject := assemblyObject.(addItem := "");
      }
    }

    /**
     * Takes every copy of `data` off stage `index`; then pushes `data` onto the
     * next stage for a `"left"` event, or suppresses the event's default action
     * and pushes it onto the previous stage for any other event type. There is
     * no push past either end of the board.
     */
    method StageItem(eventType: string, data: string, index: nat, event: Event)
      requires index < |assemblyObject.stageObject|
      modifies this`assemblyObject, event
      ensures assemblyObject == Move(old(assemblyObject), DirectionOf(eventType), data, index)
      ensures event.defaultPrevented == (old(event.defaultPrevented) || eventType != "left")
    {
      var st := assemblyObject.stageObject;
      st := st[index := st[index].(content := Without(st[index].content, data))];
      assemblyObject := assemblyObject.(stageObject := st);
      if eventType == "left" {
        if index < |st| - 1 {
          st := st[index + 1 := st[index + 1].(content := st[index + 1].content + [data])];
          assemblyObject := assemblyObject.(stageObject := st);
        }
        return;
      }
      event.PreventDefault();
      if index != 0 {
        st := st[index - 1 := st[index - 1].(content := st[index - 1].content + [data])];
        assemblyObject := assemblyObject.(stageObject := st);
      }
    }
  }
}
