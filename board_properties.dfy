/** Properties of the board reducer that relate several lists or several
    actions: cars are neither created nor lost by a move, a move is undone by
    the opposite move, ADD_CAR (as written) leaves every `cars` sequence
    alone, and the drag marker toggles back. */
module BoardProperties {
  import opened Wrappers
  import opened DragItems
  import opened ArrayUtils
  import opened AppStateContext

  /** Every car on the board, column by column, in display order. */
  function AllCars(lists: seq<List>): (r: seq<Car>)
  {
    if lists == [] then [] else lists[0].cars + AllCars(lists[1..])
  }

  /** The board's cars are those of the columns before `index`, then those
      of column `index`, then those of the columns after it. */
  lemma {:induction false} AllCarsSplit(lists: seq<List>, index: nat)
    requires index < |lists|
    ensures AllCars(lists) == AllCars(lists[..index]) + lists[index].cars + AllCars(lists[index + 1..])
  {
    if index == 0 {
      assert lists[..0] == [];
    } else {
      var tail := lists[1..];
      AllCarsSplit(tail, index - 1);
      assert tail[..index - 1] == lists[..index][1..];
      assert tail[index..] == lists[index + 1..];
      assert lists[..index][0] == lists[0];
    }
  }

  /** Replacing column `index` replaces its cars, in place, on the board. */
  lemma AllCarsOverride(lists: seq<List>, list: List, index: nat)
    requires index < |lists|
    ensures AllCars(OverrideItemAtIndex(lists, list, index))
            == AllCars(lists[..index]) + list.cars + AllCars(lists[index + 1..])
  {
    var r := OverrideItemAtIndex(lists, list, index);
    AllCarsSplit(r, index);
    assert r[..index] == lists[..index];
    assert r[index + 1..] == lists[index + 1..];
  }

  /** Columns with the same `cars` sequences hold the same cars in the same
      order, whatever their other fields. */
  lemma {:induction false} AllCarsOfSameCars(a: seq<List>, b: seq<List>)
    requires |a| == |b|
    requires forall k :: 0 <= k < |a| ==> a[k].cars == b[k].cars
    ensures AllCars(a) == AllCars(b)
  {
    if a != [] {
      AllCarsOfSameCars(a[1..], b[1..]);
    }
  }

  /** Taking the car at `dragIndex` out of column `si` takes it out of the
      board's cars at its position on the board. */
  lemma AllCarsAfterRemoval(lists: seq<List>, si: nat, dragIndex: nat, updated: List)
    requires si < |lists| && dragIndex < |lists[si].cars|
    requires updated.cars == RemoveItemAtIndex(lists[si].cars, dragIndex)
    ensures |AllCars(lists[..si])| + dragIndex < |AllCars(lists)|
    ensures AllCars(lists)[|AllCars(lists[..si])| + dragIndex] == lists[si].cars[dragIndex]
    ensures AllCars(OverrideItemAtIndex(lists, updated, si))
            == RemoveItemAtIndex(AllCars(lists), |AllCars(lists[..si])| + dragIndex)
  {
    var before, after := AllCars(lists[..si]), AllCars(lists[si + 1..]);
    AllCarsSplit(lists, si);
    calc {
      AllCars(OverrideItemAtIndex(lists, updated, si));
      { AllCarsOverride(lists, updated, si); }
      before + updated.cars + after;
      before + RemoveItemAtIndex(lists[si].cars, dragIndex) + after;
      { RemoveInConcat(before, lists[si].cars, after, dragIndex); }
      RemoveItemAtIndex(before + lists[si].cars + after, |before| + dragIndex);
      RemoveItemAtIndex(AllCars(lists), |before| + dragIndex);
    }
  }

  /** Putting `car` into column `ti` at `hoverIndex` puts it into the
      board's cars at the matching position on the board. */
  lemma AllCarsAfterInsertion(lists: seq<List>, ti: nat, car: Car, hoverIndex: nat, updated: List)
    requires ti < |lists| && hoverIndex <= |lists[ti].cars|
    requires updated.cars == InsertItemAtIndex(lists[ti].cars, car, hoverIndex)
    ensures |AllCars(lists[..ti])| + hoverIndex <= |AllCars(lists)|
    ensures AllCars(OverrideItemAtIndex(lists, updated, ti))
            == InsertItemAtIndex(AllCars(lists), car, |AllCars(lists[..ti])| + hoverIndex)
  {
    var before, after := AllCars(lists[..ti]), AllCars(lists[ti + 1..]);
    AllCarsSplit(lists, ti);
    calc {
      AllCars(OverrideItemAtIndex(lists, updated, ti));
      { AllCarsOverride(lists, updated, ti); }
      before + updated.cars + after;
      before + InsertItemAtIndex(lists[ti].cars, car, hoverIndex) + after;
      { InsertInConcat(before, lists[ti].cars, after, car, hoverIndex); }
      InsertItemAtIndex(before + lists[ti].cars + after, car, |before| + hoverIndex);
      InsertItemAtIndex(AllCars(lists), car, |before| + hoverIndex);
    }
  }

  /** Taking a car out of one column takes exactly that car off the board. */
  lemma BoardLosesRemovedCar(lists: seq<List>, si: nat, dragIndex: nat, updated: List)
    requires si < |lists| && dragIndex < |lists[si].cars|
    requires updated.cars == RemoveItemAtIndex(lists[si].cars, dragIndex)
    ensures multiset(AllCars(OverrideItemAtIndex(lists, updated, si))) + multiset{lists[si].cars[dragIndex]}
            == multiset(AllCars(lists))
  {
    var board, at := AllCars(lists), |AllCars(lists[..si])| + dragIndex;
    var newBoard := AllCars(OverrideItemAtIndex(lists, updated, si));
    AllCarsAfterRemoval(lists, si, dragIndex, updated);
    assert board[at] == lists[si].cars[dragIndex];
    RemovedMultiset(newBoard, board, at);
    assert multiset(newBoard) + multiset{board[at]} == multiset(board);
  }

  /** Putting a car into one column puts exactly that car on the board. */
  lemma BoardGainsInsertedCar(lists: seq<List>, ti: nat, car: Car, hoverIndex: nat, updated: List)
    requires ti < |lists| && hoverIndex <= |lists[ti].cars|
    requires updated.cars == InsertItemAtIndex(lists[ti].cars, car, hoverIndex)
    ensures multiset(AllCars(OverrideItemAtIndex(lists, updated, ti))) == multiset(AllCars(lists)) + multiset{car}
  {
    var board, at := AllCars(lists), |AllCars(lists[..ti])| + hoverIndex;
    var newBoard := AllCars(OverrideItemAtIndex(lists, updated, ti));
    AllCarsAfterInsertion(lists, ti, car, hoverIndex, updated);
    InsertedMultiset(newBoard, board, car, at);
  }

  /** MOVE_CAR / UPDATE_CAR neither create nor lose cars: the board holds the
      same cars, each as often as before, so the total count is unchanged. */
  lemma MoveCarKeepsCars(lists: seq<List>, dragIndex: nat, hoverIndex: nat, si: nat, ti: nat)
    requires si < |lists| && ti < |lists|
    requires dragIndex < |lists[si].cars|
    requires hoverIndex <= |lists[ti].cars| - (if si == ti then 1 else 0)
    ensures multiset(AllCars(MoveCarLists(lists, dragIndex, hoverIndex, si, ti))) == multiset(AllCars(lists))
    ensures |AllCars(MoveCarLists(lists, dragIndex, hoverIndex, si, ti))| == |AllCars(lists)|
  {
    var car := lists[si].cars[dragIndex];
    var updatedSource := lists[si].(cars := RemoveItemAtIndex(lists[si].cars, dragIndex));
    var afterRemoval := OverrideItemAtIndex(lists, updatedSource, si);
    BoardLosesRemovedCar(lists, si, dragIndex, updatedSource);
    var targetList := afterRemoval[ti];
    var updatedTarget := targetList.(cars := InsertItemAtIndex(targetList.cars, car, hoverIndex));
    var r := OverrideItemAtIndex(afterRemoval, updatedTarget, ti);
    assert r == MoveCarLists(lists, dragIndex, hoverIndex, si, ti);
    BoardGainsInsertedCar(afterRemoval, ti, car, hoverIndex, updatedTarget);
    assert |multiset(AllCars(r))| == |AllCars(r)|;
  }

  /** The dragged car is found at `hoverIndex` of the target column, and
      the columns keep their order, ids, titles and `tasks`. */
  lemma MoveCarLandsAtHover(lists: seq<List>, dragIndex: nat, hoverIndex: nat, si: nat, ti: nat)
    requires si < |lists| && ti < |lists|
    requires dragIndex < |lists[si].cars|
    requires hoverIndex <= |lists[ti].cars| - (if si == ti then 1 else 0)
    ensures MoveCarLists(lists, dragIndex, hoverIndex, si, ti)[ti].cars[hoverIndex] == lists[si].cars[dragIndex]
  {
  }

  /** Moving a car and then moving it straight back (from `hoverIndex` of the
      target column to `dragIndex` of the source column) restores every
      column, within one column or across two, adjacent positions or not.
      This is about the sequences of car references only: run through
      `Reduce`, each move also writes the dragged car's `estimatedate`, so
      its original date is not restored. */
  lemma MoveCarRoundTrip(lists: seq<List>, dragIndex: nat, hoverIndex: nat, si: nat, ti: nat)
    requires si < |lists| && ti < |lists|
    requires dragIndex < |lists[si].cars|
    requires hoverIndex <= |lists[ti].cars| - (if si == ti then 1 else 0)
    ensures var moved := MoveCarLists(lists, dragIndex, hoverIndex, si, ti);
            && hoverIndex < |moved[ti].cars|
            && dragIndex <= |moved[si].cars| - (if si == ti then 1 else 0)
            && MoveCarLists(moved, hoverIndex, dragIndex, ti, si) == lists
  {
    var moved := MoveCarLists(lists, dragIndex, hoverIndex, si, ti);
    var back := MoveCarLists(moved, hoverIndex, dragIndex, ti, si);
    if si == ti {
      MoveItemRoundTrip(lists[si].cars, dragIndex, hoverIndex);
    } else {
      RemoveInserted(lists[ti].cars, lists[si].cars[dragIndex], hoverIndex);
      InsertRemoved(lists[si].cars, dragIndex);
    }
    assert forall k :: 0 <= k < |lists| ==> back[k] == lists[k];
  }

  /** ADD_CAR as written does not change which cars are on the board, nor
      their order: the new car is only recorded in the target column's
      `tasks`. */
  lemma AddCarKeepsBoardCars(lists: seq<List>, listIndex: nat, car: Car)
    requires listIndex < |lists|
    ensures AllCars(AddCarLists(lists, listIndex, car)) == AllCars(lists)
  {
    AllCarsOfSameCars(AddCarLists(lists, listIndex, car), lists);
  }

  /** Because ADD_CAR builds `tasks` from `cars`, which it never changes, a
      second ADD_CAR on the same column discards the first new car. */
  lemma AddCarTwiceKeepsOnlyLast(lists: seq<List>, listIndex: nat, first: Car, second: Car)
    requires listIndex < |lists|
    ensures AddCarLists(AddCarLists(lists, listIndex, first), listIndex, second)[listIndex].tasks
            == Some(lists[listIndex].cars + [second])
  {
  }

  /** Setting a drag marker and then clearing it leaves the board as it was
      with no marker; on an idle board it restores the board exactly. */
  lemma DragToggleRestores(state: AppState, item: DragItem)
    ensures SetDraggedItemState(SetDraggedItemState(state, Some(item)), None)
            == state.(draggedItem := None)
    ensures state.draggedItem == None ==>
              SetDraggedItemState(SetDraggedItemState(state, Some(item)), None) == state
  {
  }

  /** The worked example of a card move through the reducer: column 1 holds
      [c1, c2], column 2 is empty; MOVE_CAR(0, 0, 1, 2) yields [c2] and [c1]
      and clears c1's date. The board passed in sees the cleared date too,
      since it shares the car object. */
  method MoveCarExample() returns (before: AppState, after: AppState)
    ensures |before.lists| == 2 && |after.lists| == 2
    ensures |before.lists[0].cars| == 2
    ensures after.lists[0].cars == [before.lists[0].cars[1]]
    ensures after.lists[1].cars == [before.lists[0].cars[0]]
    ensures before.lists[0].cars[0].estimatedate == ""
  {
    var c1 := new Car(10, "blue", "Ford", "Focus", "2024-05-01", 50000, "");
    var c2 := new Car(11, "red", "Fiat", "Uno", "", 120000, "");
    before := AppState([List(1, "Waiting", [c1, c2], None), List(2, "Scheduled", [], None)], None);
    var action := MoveCar(0, 0, 1, 2);
    assert before.lists[0].id == 1;
    assert FindItemIndexById(before.lists, 1) == 0;
    assert before.lists[1].id == 2;
    assert FindItemIndexById(before.lists, 2) == 1;
    after := Reduce(before, action, 0);
  }
}
