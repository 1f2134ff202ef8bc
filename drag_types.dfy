/** The drag-and-drop item kinds the modelled components use (members of
    the DragTypes enum in src/types/enums, whose string values are not
    needed here). */
module DragTypes {
  datatype DragType = Album | Artist | Playlist | PlaylistItem | PlayQueueItem | Track
}
