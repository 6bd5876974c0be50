/** Replacing a file by writing a temporary one, renaming it and syncing the directory. */
module AtomicFile {
  /** The new content is durable, is visible but may be lost in a crash, or is not there. */
  datatype Write = Saved | Renamed | Failed
}
