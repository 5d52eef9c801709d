/** Whether a rendered card or column is the one being dragged, in which case
    the view hides it and shows only the drag preview. */
module Hidden {
  import opened Wrappers
  import opened DragItems

  /** JavaScript truthiness of an optional boolean: `undefined` is falsy. */
  function Truthy(b: Option<bool>): (t: bool)
    ensures t <==> b == Some(true)
  {
    match b
    case None => false
    case Some(v) => v
  }

  /** `Boolean(!isPreview && draggedItem && draggedItem.type === itemType &&
      draggedItem.id === id)`, evaluated left to right with short-circuit. */
  function IsHidden(isPreview: Option<bool>, draggedItem: Option<DragItem>, itemType: string, id: int): (r: bool)
    ensures isPreview == Some(true) ==> !r
    ensures draggedItem == None ==> !r
    ensures draggedItem.Some? && draggedItem.value.Type() != itemType ==> !r
    ensures draggedItem.Some? && draggedItem.value.id != id ==> !r
    ensures r <==> isPreview != Some(true) && draggedItem.Some?
                   && draggedItem.value.Type() == itemType && draggedItem.value.id == id
  {
    if Truthy(isPreview) then false
    else
      match draggedItem
      case None => false
      case Some(item) => item.Type() == itemType && item.id == id
  }

  /** An absent `isPreview` behaves as `false`. */
  lemma UndefinedPreviewIsNotPreview(draggedItem: Option<DragItem>, itemType: string, id: int)
    ensures IsHidden(None, draggedItem, itemType, id) == IsHidden(Some(false), draggedItem, itemType, id)
  {
  }

  /** A dragged card never hides a column, even one with the same id, and a
      dragged column never hides a card. */
  lemma DragKindsDoNotMix(isPreview: Option<bool>, item: DragItem, id: int)
    ensures item.CardDragItem? ==> !IsHidden(isPreview, Some(item), "COLUMN", id)
    ensures item.ColumnDragItem? ==> !IsHidden(isPreview, Some(item), "CARD", id)
  {
  }
}
