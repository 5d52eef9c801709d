/** The descriptor of the item currently being dragged: a card (which also
    records its column) or a column. */
module DragItems {

  datatype DragItem =
    | CardDragItem(index: int, id: int, columnId: int, text: string)
    | ColumnDragItem(index: int, id: int, text: string)
  {
    /** The item's `type` tag. */
    function Type(): (t: string)
      ensures t == "CARD" <==> CardDragItem?
      ensures t == "COLUMN" <==> ColumnDragItem?
    {
      match this
      case CardDragItem(_, _, _, _) => "CARD"
      case ColumnDragItem(_, _, _) => "COLUMN"
    }
  }
}
