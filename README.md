# Assembly line board, modelled in Dafny

`AssemblyLineComponent` is an Angular widget that shows a kanban-style
"assembly line". Its state, `assemblyObject`, is a pending input string
`addItem` plus an ordered list `stageObject` of stages. Each stage has a
`label` and a `content` list of item strings. The component does three things
to this state:

- `ngOnInit` appends one empty stage per bound label.
- `assemblyAddItem` pushes a non-empty pending string onto stage 0 and clears
  the pending string.
- `stageItem(eventType, data, index, event)` filters every copy of `data` out
  of stage `index`. For a `"left"` event it then pushes `data` onto stage
  `index + 1`. For any other event it calls `preventDefault` on the event and
  pushes `data` onto stage `index - 1`. When that neighbour does not exist,
  the item leaves the board.

The project has four modules:

- `StageList` (`stage_list.dfy`): `Without`, the `filter` step. It comes with
  lemmas that characterise it completely: it is the one order-preserving
  subsequence that drops exactly the matching items.
- `AssemblyBoard` (`board.dfy`): the state as a value, a `Board` of `Stage`s,
  and the three operations as functions (`InitStages`, `AddItem`, `Move`).
  Lemmas about these functions cover the item counts, uniqueness and the
  forward/backward round trip.
- `AssemblyLine` (`component.dfy`): the component as a class whose methods
  change `assemblyObject` in place. Each method is proved to leave exactly the
  state that the matching `AssemblyBoard` function computes. `ngOnInit` keeps
  its loop.
- `Scenarios` (`scenarios.dfy`): the move scenarios from the component's test
  file, replayed on the model.

Storage order is push order: every insertion appends to the end of a stage's
`content`. The tests read each stage newest first, so the page must show
`content` reversed. The scenarios are stated in that display order.

The field `label` is called `name` in the model, because `label` is a Dafny
keyword. The untyped `assemblyObject` becomes the typed record `Board`.

## Model

| member | source | states |
|---|---|---|
| `StageList.Without` | src/app/assemblyline/assemblyline.component.ts:28 | The filtered stage holds every item except `data`, each as often as before, and no copy of `data`. Its length falls by the number of copies removed. |
| `StageList.WithoutKeepsOrder` | src/app/assemblyline/assemblyline.component.ts:28 | The items that survive the filter keep their relative order (they form a subsequence of the old content). |
| `StageList.WithoutUnique` | src/app/assemblyline/assemblyline.component.ts:28 | Any order-preserving subsequence with the same non-`data` items and no `data` is the filter's result, so the filter is fully determined by those two properties. |
| `StageList.WithoutAbsent` | src/app/assemblyline/assemblyline.component.ts:28 | Filtering a label that is not in the stage leaves its content unchanged. |
| `StageList.WithoutIdempotent` | src/app/assemblyline/assemblyline.component.ts:28 | Filtering the same label twice is the same as filtering it once. |
| `StageList.WithoutAppend` | src/app/assemblyline/assemblyline.component.ts:28 | The filter distributes over concatenation. |
| `StageList.WithoutSingle` | src/app/assemblyline/assemblyline.component.ts:28 | Filtering a label that occurs once removes exactly that element and keeps everything around it. |
| `AssemblyBoard.DirectionOf` | src/app/assemblyline/assemblyline.component.ts:29 | Only the event type `"left"` means forward; every other event type means backward. |
| `AssemblyBoard.InitStages` | src/app/assemblyline/assemblyline.component.ts:14-18 | Initialisation builds one stage per label, in the labels' order, each labelled with its label and with empty content. |
| `AssemblyBoard.InitStagesEmpty` | src/app/assemblyline/assemblyline.component.ts:14-18 | A freshly initialised board holds no items: the item multiset is empty and the count is 0. |
| `AssemblyBoard.AddItem` | src/app/assemblyline/assemblyline.component.ts:20-25 | An empty pending string changes nothing. A non-empty one is appended to stage 0's content and the pending string becomes `""`. The stage count, stage 0's label and every other stage stay unchanged. A non-empty string needs at least one stage. |
| `AssemblyBoard.AddItemItems` | src/app/assemblyline/assemblyline.component.ts:20-25 | Adding a non-empty string puts exactly one copy of it on the board (item multiset plus `{s}`, count plus 1). |
| `AssemblyBoard.AddItemMayRepeat` | src/app/assemblyline/assemblyline.component.ts:20-25 | Adding does not enforce unique labels: a board with unique labels can gain a duplicate. |
| `AssemblyBoard.Move` | src/app/assemblyline/assemblyline.component.ts:27-39 | After a move, stage `index` holds the filtered content. A forward move from a non-last stage appends one copy to stage `index + 1`. A backward move from a non-first stage appends one copy to stage `index - 1`. The pending input, the stage count, every label and every other stage stay unchanged. |
| `AssemblyBoard.MoveKeepsSourceOrder` | src/app/assemblyline/assemblyline.component.ts:28 | The source stage's remaining items keep their old relative order. |
| `AssemblyBoard.MoveItems` | src/app/assemblyline/assemblyline.component.ts:27-39 | Labels other than `data` keep their counts on the board. The count of `data` falls by its copies in the source stage, then rises by one if the item lands on a neighbour. |
| `AssemblyBoard.MoveTotal` | src/app/assemblyline/assemblyline.component.ts:27-39 | The item count falls by the copies of `data` in the source stage and rises by one when the item lands. Moving forward off the last stage or backward off stage 0 only removes. Moving a label absent from its stage only adds. |
| `AssemblyBoard.MovePreservesDistinct` | src/app/assemblyline/assemblyline.component.ts:27-39 | If every label occurs at most once on the board and `data` is on stage `index`, the same is true after the move. |
| `AssemblyBoard.ForwardThenBackward` | src/app/assemblyline/assemblyline.component.ts:27-39 | Take the newest item of stage `i`, occurring once there and not in stage `i + 1`. Moving it forward and then back restores the board exactly. |
| `AssemblyLine.Event.PreventDefault` | src/app/assemblyline/assemblyline.component.ts:35 | The event's default action is marked as suppressed. |
| `AssemblyLine.AssemblyLineComponent.constructor` | src/app/assemblyline/assemblyline.component.ts:9-12 | A new component has its bound labels, an empty pending string and no stages. |
| `AssemblyLine.AssemblyLineComponent.NgOnInit` | src/app/assemblyline/assemblyline.component.ts:14-18 | The loop appends `InitStages(stages)` to the existing stages and leaves the pending string alone. |
| `AssemblyLine.AssemblyLineComponent.AssemblyAddItem` | src/app/assemblyline/assemblyline.component.ts:20-25 | The new `assemblyObject` is `AddItem` of the old one. |
| `AssemblyLine.AssemblyLineComponent.StageItem` | src/app/assemblyline/assemblyline.component.ts:27-39 | The new `assemblyObject` is `Move` of the old one, in the direction given by `DirectionOf(eventType)`. The event's default action is suppressed exactly when the event type is not `"left"`. |
| `Scenarios.Initialised` | src/app/assemblyline/assemblyline.component.spec.ts:75-88 | After initialisation with the four labels, there are four stages and no items. |
| `Scenarios.EnterOne` | src/app/assemblyline/assemblyline.component.spec.ts:110-131 | Entering "goldenrod" leaves it as the only item in Idea and clears the input. |
| `Scenarios.SeededBoard` | src/app/assemblyline/assemblyline.component.spec.ts:161-169 | Entering indigo, turquoise, magenta and fuschia stores them in entry order, and Idea shows them newest first. |
| `Scenarios.FirstItemForward` | src/app/assemblyline/assemblyline.component.spec.ts:171-181 | Clicking fuschia moves it to Development. Idea then shows magenta, turquoise, indigo. |
| `Scenarios.LastItemForward` | src/app/assemblyline/assemblyline.component.spec.ts:183-197 | Clicking indigo moves it to the top of Development. |
| `Scenarios.EnterMidStream` | src/app/assemblyline/assemblyline.component.spec.ts:199-214 | Entering maroon puts it on top of Idea. |
| `Scenarios.MiddleItemForward` | src/app/assemblyline/assemblyline.component.spec.ts:216-231 | Clicking magenta moves it to the top of Development. |
| `Scenarios.MiddleItemBackward` | src/app/assemblyline/assemblyline.component.spec.ts:233-248 | Right-clicking indigo in Development pushes it onto Idea, so the code shows it on top of Idea (see below). |
| `Scenarios.BackToIdea` | src/app/assemblyline/assemblyline.component.spec.ts:384-399 | Right-clicking fuschia in Development restores the seeded board, so the code shows fuschia on top of Idea (see below). |
| `Scenarios.ThroughToTheEnd` | src/app/assemblyline/assemblyline.component.spec.ts:402-452 | Clicking fuschia in Development, then in Testing, then in Deployment carries it through those stages and off the board. |
| `Scenarios.OffIdea` | src/app/assemblyline/assemblyline.component.spec.ts:458-471 | Right-clicking fuschia in Idea takes it off the board. |

### The tests and the code disagree on backward moves

In two places the test file (`assemblyline.component.spec.ts`, spec.ts below) expects a backward-moved item at the bottom of
the previous stage:

- spec.ts:240-248 expects Idea to show maroon, turquoise, indigo.
- spec.ts:391-398 expects Idea to show magenta, turquoise, indigo, fuschia.

The code pushes the item instead. With the newest-first rendering that the
other tests need, the item shows on top:

- `MiddleItemBackward`: Idea shows indigo, maroon, turquoise.
- `BackToIdea`: Idea shows fuschia, magenta, turquoise, indigo.

No template can satisfy both spec.ts:165-169 and spec.ts:391-398:

- `BackToIdea` proves that the board after the right-click satisfies the same
  `Shows` as the board of `SeededBoard`. `Shows` fixes the pending input, every
  label and every stage's content, so the two boards are the same state.
  `ForwardThenBackward` proves the same round trip for any board.
- The tests nevertheless expect two different displays of that one state.

The model follows the code. The code also does not keep item labels unique,
and removing with `filter` drops every copy of the label, not only the first:

- `AddItemMayRepeat`: adding a label that is already on the board creates a
  second copy.
- `MovePreservesDistinct`: a move keeps labels unique when the moved label is
  on its stage.
- `MoveTotal`: a label that is not on its stage is still added to the
  neighbour.

## Left out

- Angular wiring is not modelled: the `@Component` decorator, `@Input`
  binding, change detection and `assemblyline.module.ts`. The constructor takes
  the bound labels directly.
- The template and stylesheet are not part of this model. Only the test file
  shows the newest-first display, and the model states it as `Reverse(content)`
  in `Scenarios`.
- Typing into the input field is modelled as setting `assemblyObject.addItem`
  (`Scenarios.Enter`). The input element's two-way binding is not modelled.
- `event` is reduced to a `defaultPrevented` flag (`AssemblyLine.Event`). No
  other DOM effect of `preventDefault` is modelled.
- `assemblyObject` is typed `any` in the source; the model uses strings only.
  Non-string pending values such as `null` and `undefined`, and truthiness
  other than the empty string, are not modelled.
- `AssemblyBoard.Move`: an out-of-range or non-integer `index` makes the
  source throw when it reads `stageObject[index]`, so `requires index < |stages|`
  excludes it. That error path is not modelled.
- `AssemblyBoard.AddItem`: a non-empty pending string with no stages makes the
  source throw, so a requires clause excludes it. That error path is not
  modelled.
- Stages are values (`Stage`), reassigned inside `assemblyObject`. Other holders
  of a reference to a stage record seeing a push is not modelled; nothing in
  the component holds one.
- The test steps from spec.ts:250 on are not replayed. They start from the
  board of spec.ts:240-248, which the code does not produce.
- `src/app/app.component.spec.ts` only checks that the application component
  exists and is not part of this model.
