# Car maintenance board: reducer and drag visibility, in Dafny

This project models the state core of a Kanban board that tracks cars
through maintenance columns. It has two parts:

- **The board reducer `appStateReducer`.** It maps a board and an action to
  the next board. The board is an ordered sequence of lists (columns), and
  each list is an ordered sequence of cars.
- **The predicate `isHidden`.** It decides whether a rendered card or column
  is the item being dragged.

Modules, one per concern of the source:

- `Wrappers` (`wrappers.dfy`): `Option`, which stands for TypeScript's `T | undefined`.
- `ArrayUtils` (`array_utils.dfy`): the copy-on-write sequence helpers the
  reducer calls. These are insert, remove and override at an index, and
  `moveItem`, which removes and then inserts into the shorter sequence.
  `src/utils/arrayUtils` is not part of this model. The helpers are defined
  with the slice semantics the reducer relies on.
- `DragItems` (`drag_item.dfy`): the drag descriptor, a card or a column.
- `Hidden` (`is_hidden.dfy`): `isHidden`, written as the short-circuit
  chain of the source. Its contract is the plain "all four conditions"
  characterisation.
- `AppStateContext` (`app_state.dfy`): the `Car`, `List`, `AppState` and
  `Action` types, the id lookup, one pure function per action, and the
  reducer method `Reduce`.
- `BoardProperties` (`board_properties.dfy`): properties that relate
  several lists or several actions. They cover the board's cars across a
  move, round trips, ADD_CAR as written, and the drag-marker toggle.

How the model follows the code:

- `Car` is a class and not a value. MOVE_CAR and UPDATE_CAR assign
  `car.estimatedate` on the car object that the incoming board still
  holds, and only then build the new lists. `Reduce` therefore may modify
  only the `estimatedate` field of the cars in `MovedCars(state, action)`. Its postcondition
  states the new date on the car reached through the *input* board: the
  old board sees the change too. Only that one field of that one car may
  change. `MoveCarExample` shows this on the worked example.
- ADD_CAR writes the new car into a property named `tasks`, not `cars`
  (src/AppStateContext.tsx:117), while the columns render only `cars`
  (src/Column.tsx:63), so the new car never shows up. The model follows
  the code as written. `List`
  therefore has a `tasks: Option<seq<Car>>` field. ADD_LIST builds lists
  without one, and ADD_CAR sets it to the list's `cars` followed by the
  new car. As a result, no list's `cars` changes. A second ADD_CAR on the
  same list also discards the first new car (`AddCarTwiceKeepsOnlyLast`).
- Lookups and indices are not checked in the source. `Admissible` states
  what the reducer relies on:
  - the looked-up ids exist;
  - `dragIndex` is a position in the source list;
  - `hoverIndex` is a position in the list after removal, or an insertion
    point in it.

## Model

| member | source | states |
|---|---|---|
| `ArrayUtils.InsertItemAtIndex` | src/AppStateContext.tsx:181-184 | the result is one longer, holds the item at the index, keeps the elements before it and shifts the rest up by one |
| `ArrayUtils.InsertedMultiset` | src/AppStateContext.tsx:181-184 | inserting adds exactly the inserted item to the multiset of elements |
| `ArrayUtils.RemoveItemAtIndex` | src/AppStateContext.tsx:165-168 | the result is one shorter, keeps the elements before the index and shifts the later ones down by one |
| `ArrayUtils.RemovedMultiset` | src/AppStateContext.tsx:165-168 | the result together with the removed element has the original multiset |
| `ArrayUtils.OverrideItemAtIndex` | src/AppStateContext.tsx:170-177 | same length, the new item at the index, every other position unchanged |
| `ArrayUtils.MoveItem` | src/AppStateContext.tsx:140-145 | same length, a permutation, the element from `from` lands at `to`, and the other elements keep their relative order |
| `ArrayUtils.RemoveInserted` | src/AppStateContext.tsx:179-184 | removing at the index where an item was inserted gives the original sequence back |
| `ArrayUtils.InsertRemoved` | src/AppStateContext.tsx:165-168 | inserting the removed element at its old index gives the original sequence back |
| `ArrayUtils.MoveItemRoundTrip` | src/AppStateContext.tsx:140-145 | a drag from `from` to `to` followed by a drag from `to` to `from` restores the sequence, for any two valid positions |
| `DragItems.DragItem.Type` | src/DragItem.ts:1-16 | the `type` tag is "CARD" exactly for card items and "COLUMN" exactly for column items |
| `Hidden.Truthy` | src/utils/isHidden.ts:4-10 | an optional boolean is truthy exactly when it is present and true, so `undefined` counts as false |
| `Hidden.IsHidden` | src/utils/isHidden.ts:3-15 | false when previewing, false with no dragged item, false when the type differs, false when the id differs, and true exactly when not previewing, an item is dragged, and its type and id both match |
| `Hidden.UndefinedPreviewIsNotPreview` | src/utils/isHidden.ts:4-10 | an absent `isPreview` gives the same answer as `false` |
| `Hidden.DragKindsDoNotMix` | src/utils/isHidden.ts:12 | a dragged card never hides a column, and a dragged column never hides a card, even when the ids are equal |
| `AppStateContext.Car.constructor` | src/AppStateContext.tsx:119-127 | a new car holds exactly the given id, description, make, model, date, mileage and image |
| `AppStateContext.FindItemIndexById` | src/AppStateContext.tsx:156-158 | for an id that some list has, the result is a valid position whose list has that id, and no earlier list has it |
| `AppStateContext.AddListState` | src/AppStateContext.tsx:98-105 | one more list, earlier lists unchanged in order and value, the last one is `{id, title, no cars, no tasks}`, and the drag marker is unchanged |
| `AppStateContext.AddCarLists` | src/AppStateContext.tsx:107-138 | same number of lists; every list keeps its id, title and `cars`; only the target list changes, and its `tasks` becomes its `cars` followed by the new car |
| `AppStateContext.MoveListState` | src/AppStateContext.tsx:140-145 | the lists are permuted with the same length, the dragged list is now at `hoverIndex`, the others keep their relative order, and the drag marker is unchanged |
| `AppStateContext.SetDraggedItemState` | src/AppStateContext.tsx:243-245 | the drag marker becomes the payload, possibly absent, and the lists are unchanged |
| `AppStateContext.MoveCarLists` | src/AppStateContext.tsx:156-193 | lists keep their count, ids, titles and `tasks`; untouched lists are unchanged; across two lists the source loses the car at `dragIndex` and the target gets it inserted at `hoverIndex`; within one list its cars are that list dragged from `dragIndex` to `hoverIndex` |
| `AppStateContext.MoveCarWithDate` | src/AppStateContext.tsx:156-193 | the new board's lists are `MoveCarLists` of the input, and the moved car object, shared with the input board, now has the given date |
| `AppStateContext.Reduce` | src/AppStateContext.tsx:96-250 | per action kind, the new board is the corresponding pure transition. ADD_CAR builds a fresh car from the payload and the generated id. MOVE_CAR clears and UPDATE_CAR sets the date on the dragged car itself, and no other field of any object changes. Any other action kind returns the input board |
| `BoardProperties.MoveCarKeepsCars` | src/AppStateContext.tsx:160-193 | a card move keeps the multiset of all cars on the board, and so the total number of cars |
| `BoardProperties.MoveCarLandsAtHover` | src/AppStateContext.tsx:179-184 | after a card move the dragged car is at `hoverIndex` of the target list |
| `BoardProperties.MoveCarRoundTrip` | src/AppStateContext.tsx:165-193 | moving a car and then moving it back from `hoverIndex` to `dragIndex` restores every list's sequence of car references, within one list or across two; through `Reduce` the dragged car's date stays as the last move set it, so the original date is not restored |
| `BoardProperties.AddCarKeepsBoardCars` | src/AppStateContext.tsx:115-138 | ADD_CAR as written leaves the board's cars and their order unchanged |
| `BoardProperties.AddCarTwiceKeepsOnlyLast` | src/AppStateContext.tsx:115-129 | after two ADD_CARs on one list, its `tasks` holds its `cars` and only the second new car |
| `BoardProperties.DragToggleRestores` | src/AppStateContext.tsx:243-245 | setting a drag marker and then clearing it gives the board with no marker, which on an idle board is the original board |
| `BoardProperties.MoveCarExample` | src/AppStateContext.tsx:147-194 | with columns [c1, c2] and [], MOVE_CAR(0, 0) gives [c2] and [c1], and the input board's c1 now has an empty date |

## Left out

- `AppStateProvider`, the `save(state)` effect and `useAppState`
  (src/AppStateContext.tsx:252-273): React context and fire-and-forget
  persistence over the network. `./api` and `./withData` are not part of
  this model.
- `nanoid()`: the generated car id is the parameter `freshId` of `Reduce`.
  In the source it is a string, although `Car.id` is declared a number;
  the model uses an integer.
- Numbers: `km`, ids and indices are integers. JavaScript floating point,
  `NaN`, and fractional or negative indices are not modelled.
- `Reduce`: out-of-range indices and ids that no list has are excluded by
  `Admissible`. The source does not check them, and what
  `findItemIndexById` and the `arrayUtils` helpers do there is not visible.
- `FindItemIndexById`: takes the first list with the id, as
  `Array.prototype.findIndex` does. Its behaviour for a missing id is
  excluded by its precondition.
- `MoveCarRoundTrip`: states the round trip on the sequences of car
  references only. The dates written in place by MOVE_CAR and UPDATE_CAR
  are not undone by the reverse move, so no round trip of the dates is
  claimed.
- Object identity of lists and boards: `List` and `AppState` are values,
  so the model does not distinguish a copied list from the original.
  Only `Car` has identity.
- src/Card.tsx, src/Column.tsx, src/ChangeItemForm.tsx and src/App.tsx:
  drag-and-drop hover callbacks, forms, rendering and configuration. Besides
  dispatching MOVE_CAR and MOVE_LIST, the hover callbacks write into the
  drag library's item object (src/Card.tsx:43-44, src/Column.tsx:33 and
  46-47), and the components read the board to render it (src/Card.tsx:78,
  src/Column.tsx:60 and 63). These callbacks are not modelled.
- `DragItem` is a value, not an object: the in-place writes of `index` and
  `columnId` by the hover callbacks above are not captured. Whether that
  object is the one stored as `draggedItem` by SET_DRAGGED_ITEM depends on
  `./useItemDrag`, which is not part of this model; if it is, the drag
  marker changes outside the reducer, which the model cannot show.
