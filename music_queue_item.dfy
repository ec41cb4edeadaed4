/** MusicQueueItem.cs: one queued track; immutable once created. */
module Items {
  import Text

  datatype MusicQueueItem = MusicQueueItem(
    fileOrURL: string,
    songName: string,
    isFile: bool,
    author: string,
    duration: Text.UInt32)
}
