/** The board state and its reducer. The board is an ordered sequence of
    lists (columns), each an ordered sequence of cars (cards). Every action
    produces a new board value by splicing sequences, except that a car's
    `estimatedate` is assigned on the car object itself, which the old board
    shares with the new one. */
module AppStateContext {
  import opened Wrappers
  import opened DragItems
  import opened ArrayUtils

  /** A tracked vehicle. A reference type, because the reducer updates the
      date of an existing car in place. */
  class Car {
    var id: int
    var description: string
    var make: string
    var model: string
    var estimatedate: string
    var km: int
    var image: string

    constructor (id: int, description: string, make: string, model: string,
                 estimatedate: string, km: int, image: string)
      ensures this.id == id && this.description == description
      ensures this.make == make && this.model == model
      ensures this.estimatedate == estimatedate && this.km == km && this.image == image
    {
      this.id := id;
      this.description := description;
      this.make := make;
      this.model := model;
      this.estimatedate := estimatedate;
      this.km := km;
      this.image := image;
    }
  }

  /** A column. `tasks` is a property that only ADD_CAR gives a list (by
      spreading the list and adding `tasks`); lists built by ADD_LIST have
      none. */
  datatype List = List(id: int, text: string, cars: seq<Car>, tasks: Option<seq<Car>>)

  datatype AppState = AppState(lists: seq<List>, draggedItem: Option<DragItem>)

  /** The dispatched actions, plus any action of another kind. The ADD_CAR
      payload's own `id` is carried but not used by the reducer. */
  datatype Action =
    | AddList(id: int, title: string)
    | AddCar(id: int, description: string, make: string, model: string,
             estimatedate: string, km: int, image: string, listId: int)
    | MoveList(dragIndex: int, hoverIndex: int)
    | SetDraggedItem(item: Option<DragItem>)
    | MoveCar(dragIndex: int, hoverIndex: int, sourceColumn: int, targetColumn: int)
    | UpdateCar(dragIndex: int, hoverIndex: int, sourceColumn: int, targetColumn: int,
                estimatedDate: string)
    | Unrecognized(kind: string)

  /** Some list carries the id `id`. */
  predicate HasList(lists: seq<List>, id: int)
  {
    exists i :: 0 <= i < |lists| && lists[i].id == id
  }

  /** The position of the first list whose id is `id`. */
  function FindItemIndexById(lists: seq<List>, id: int): (r: nat)
    requires HasList(lists, id)
    ensures r < |lists| && lists[r].id == id
    ensures forall j :: 0 <= j < r ==> lists[j].id != id
  {
    if lists[0].id == id then 0
    else
      assert HasList(lists[1..], id) by {
        var i :| 0 <= i < |lists| && lists[i].id == id;
        assert lists[1..][i - 1].id == id;
      }
      1 + FindItemIndexById(lists[1..], id)
  }

  /** A card move can be carried out: both columns exist, `dragIndex` is a
      position in the source column, and `hoverIndex` is an insertion point
      in the target column as it is once the car has been taken out. */
  predicate CarMoveAdmissible(lists: seq<List>, dragIndex: int, hoverIndex: int,
                              sourceColumn: int, targetColumn: int)
  {
    && HasList(lists, sourceColumn)
    && HasList(lists, targetColumn)
    && var si := FindItemIndexById(lists, sourceColumn);
    && var ti := FindItemIndexById(lists, targetColumn);
    && 0 <= dragIndex < |lists[si].cars|
    && 0 <= hoverIndex <= |lists[ti].cars| - (if si == ti then 1 else 0)
  }

  /** The lookups and indices the reducer relies on resolve; the source does
      not check them. */
  predicate Admissible(state: AppState, action: Action)
  {
    match action
    case AddCar(_, _, _, _, _, _, _, listId) => HasList(state.lists, listId)
    case MoveList(dragIndex, hoverIndex) =>
      0 <= dragIndex < |state.lists| && 0 <= hoverIndex < |state.lists|
    case MoveCar(dragIndex, hoverIndex, sourceColumn, targetColumn) =>
      CarMoveAdmissible(state.lists, dragIndex, hoverIndex, sourceColumn, targetColumn)
    case UpdateCar(dragIndex, hoverIndex, sourceColumn, targetColumn, _) =>
      CarMoveAdmissible(state.lists, dragIndex, hoverIndex, sourceColumn, targetColumn)
    case _ => true
  }

  /** ADD_LIST: a new empty column at the end; nothing else changes. */
  function AddListState(state: AppState, id: int, title: string): (r: AppState)
    ensures |r.lists| == |state.lists| + 1
    ensures r.lists[..|state.lists|] == state.lists
    ensures r.lists[|state.lists|] == List(id, title, [], None)
    ensures r.draggedItem == state.draggedItem
  {
    state.(lists := state.lists + [List(id, title, [], None)])
  }

  /** ADD_CAR as written: the target list gets `tasks` set to its cars plus
      the new car; no list's `cars` changes and no other list changes. */
  function AddCarLists(lists: seq<List>, listIndex: nat, car: Car): (r: seq<List>)
    requires listIndex < |lists|
    ensures |r| == |lists|
    ensures forall k :: 0 <= k < |r| ==>
              r[k].id == lists[k].id && r[k].text == lists[k].text && r[k].cars == lists[k].cars
    ensures forall k :: 0 <= k < |r| && k != listIndex ==> r[k] == lists[k]
    ensures r[listIndex].tasks == Some(lists[listIndex].cars + [car])
  {
    var targetList := lists[listIndex];
    OverrideItemAtIndex(lists, targetList.(tasks := Some(targetList.cars + [car])), listIndex)
  }

  /** MOVE_LIST: the column at `dragIndex` is dragged to `hoverIndex`. */
  function MoveListState(state: AppState, dragIndex: nat, hoverIndex: nat): (r: AppState)
    requires dragIndex < |state.lists| && hoverIndex < |state.lists|
    ensures |r.lists| == |state.lists|
    ensures multiset(r.lists) == multiset(state.lists)
    ensures r.lists[hoverIndex] == state.lists[dragIndex]
    ensures RemoveItemAtIndex(r.lists, hoverIndex) == RemoveItemAtIndex(state.lists, dragIndex)
    ensures r.draggedItem == state.draggedItem
  {
    state.(lists := MoveItem(state.lists, dragIndex, hoverIndex))
  }

  /** SET_DRAGGED_ITEM: only the drag marker changes. */
  function SetDraggedItemState(state: AppState, item: Option<DragItem>): (r: AppState)
    ensures r.lists == state.lists
    ensures r.draggedItem == item
  {
    state.(draggedItem := item)
  }

  /** The columns after moving the car at `dragIndex` of column `si` to
      position `hoverIndex` of column `ti`: first the source column loses the
      car, then the target column, as it stands after that removal, gets it. */
  function MoveCarLists(lists: seq<List>, dragIndex: nat, hoverIndex: nat, si: nat, ti: nat): (r: seq<List>)
    requires si < |lists| && ti < |lists|
    requires dragIndex < |lists[si].cars|
    requires hoverIndex <= |lists[ti].cars| - (if si == ti then 1 else 0)
    ensures |r| == |lists|
    ensures forall k :: 0 <= k < |r| ==>
              r[k].id == lists[k].id && r[k].text == lists[k].text && r[k].tasks == lists[k].tasks
    ensures forall k :: 0 <= k < |r| && k != si && k != ti ==> r[k] == lists[k]
    ensures si != ti ==> r[si].cars == RemoveItemAtIndex(lists[si].cars, dragIndex)
    ensures si != ti ==>
              r[ti].cars == InsertItemAtIndex(lists[ti].cars, lists[si].cars[dragIndex], hoverIndex)
    ensures si == ti ==> r[si].cars == MoveItem(lists[si].cars, dragIndex, hoverIndex)
  {
    var sourceList := lists[si];
    var car := sourceList.cars[dragIndex];
    var updatedSourceList := sourceList.(cars := RemoveItemAtIndex(sourceList.cars, dragIndex));
    var afterRemoval := OverrideItemAtIndex(lists, updatedSourceList, si);
    var targetList := afterRemoval[ti];
    OverrideItemAtIndex(afterRemoval, targetList.(cars := InsertItemAtIndex(targetList.cars, car, hoverIndex)), ti)
  }

  /** The car a MOVE_CAR or UPDATE_CAR action picks up. */
  function DraggedCar(state: AppState, action: Action): (car: Car)
    requires action.MoveCar? || action.UpdateCar?
    requires Admissible(state, action)
  {
    state.lists[FindItemIndexById(state.lists, action.sourceColumn)].cars[action.dragIndex]
  }

  /** The objects whose `estimatedate` the reducer assigns. */
  function MovedCars(state: AppState, action: Action): (cars: set<Car>)
    requires Admissible(state, action)
  {
    if action.MoveCar? || action.UpdateCar? then {DraggedCar(state, action)} else {}
  }

  /** The new car an ADD_CAR action builds from its payload and a generated id. */
  predicate BuiltFrom(car: Car, action: Action, freshId: int)
    requires action.AddCar?
    reads car
  {
    && car.id == freshId && car.description == action.description
    && car.make == action.make && car.model == action.model
    && car.estimatedate == action.estimatedate && car.km == action.km && car.image == action.image
  }

  /** Moves the car at `dragIndex` of column `sourceColumn` to position
      `hoverIndex` of column `targetColumn`, after writing `date` into that
      car's `estimatedate` in place. */
  method MoveCarWithDate(state: AppState, dragIndex: int, hoverIndex: int,
                         sourceColumn: int, targetColumn: int, date: string)
    returns (next: AppState)
    requires CarMoveAdmissible(state.lists, dragIndex, hoverIndex, sourceColumn, targetColumn)
    modifies {state.lists[FindItemIndexById(state.lists, sourceColumn)].cars[dragIndex]}`estimatedate
    ensures next == state.(lists := MoveCarLists(state.lists, dragIndex, hoverIndex,
                                                 FindItemIndexById(state.lists, sourceColumn),
                                                 FindItemIndexById(state.lists, targetColumn)))
    ensures state.lists[FindItemIndexById(state.lists, sourceColumn)].cars[dragIndex].estimatedate == date
  {
    var sourceListIndex := FindItemIndexById(state.lists, sourceColumn);
    var targetListIndex := FindItemIndexById(state.lists, targetColumn);
    var sourceList := state.lists[sourceListIndex];
    var car := sourceList.cars[dragIndex];
    car.estimatedate := date;
    var updatedSourceList := sourceList.(cars := RemoveItemAtIndex(sourceList.cars, dragIndex));
    var stateWithUpdatedSourceList :=
      state.(lists := OverrideItemAtIndex(state.lists, updatedSourceList, sourceListIndex));
    var targetList := stateWithUpdatedSourceList.lists[targetListIndex];
    var updatedTargetList := targetList.(cars := InsertItemAtIndex(targetList.cars, car, hoverIndex));
    next := stateWithUpdatedSourceList.(lists :=
      OverrideItemAtIndex(stateWithUpdatedSourceList.lists, updatedTargetList, targetListIndex));
  }

  /** The board reducer. `freshId` stands for the generated id of a car that
      ADD_CAR creates. */
  method Reduce(state: AppState, action: Action, freshId: int) returns (next: AppState)
    requires Admissible(state, action)
    modifies MovedCars(state, action)`estimatedate
    ensures action.AddList? ==> next == AddListState(state, action.id, action.title)
    ensures action.AddCar? ==>
              exists car: Car :: fresh(car) && BuiltFrom(car, action, freshId) &&
                next == state.(lists := AddCarLists(state.lists, FindItemIndexById(state.lists, action.listId), car))
    ensures action.MoveList? ==> next == MoveListState(state, action.dragIndex, action.hoverIndex)
    ensures action.MoveCar? || action.UpdateCar? ==>
              next == state.(lists := MoveCarLists(state.lists, action.dragIndex, action.hoverIndex,
                                                   FindItemIndexById(state.lists, action.sourceColumn),
                                                   FindItemIndexById(state.lists, action.targetColumn)))
    ensures action.MoveCar? ==> DraggedCar(state, action).estimatedate == ""
    ensures action.UpdateCar? ==> DraggedCar(state, action).estimatedate == action.estimatedDate
    ensures action.SetDraggedItem? ==> next == SetDraggedItemState(state, action.item)
    ensures action.Unrecognized? ==> next == state
  {
    match action {
      case AddList(id, title) =>
        next := AddListState(state, id, title);
      case AddCar(_, description, make, model, estimatedate, km, image, listId) =>
        var targetListIndex := FindItemIndexById(state.lists, listId);
        var car := new Car(freshId, description, make, model, estimatedate, km, image);
        next := state.(lists := AddCarLists(state.lists, targetListIndex, car));
      case MoveList(dragIndex, hoverIndex) =>
        next := MoveListState(state, dragIndex, hoverIndex);
      case MoveCar(dragIndex, hoverIndex, sourceColumn, targetColumn) =>
        next := MoveCarWithDate(state, dragIndex, hoverIndex, sourceColumn, targetColumn, "");
      case UpdateCar(dragIndex, hoverIndex, sourceColumn, targetColumn, estimatedDate) =>
        next := MoveCarWithDate(state, dragIndex, hoverIndex, sourceColumn, targetColumn, estimatedDate);
      case SetDraggedItem(item) =>
        next := SetDraggedItemState(state, item);
      case Unrecognized(_) =>
        next := state;
    }
  }
}
