/** Values shared by every part of the model: options, ids, archive formats and
    the immutable and mutable columns of the build tables. */
module Records {

  datatype Option<+T> = None | Some(value: T)

  type BuildId = nat

  datatype BuildState = Started | Processing | Completed | Failed

  datatype Channel = Channel(upload: nat, name: string)

  /** The columns of a build row that no code path changes after the insert. */
  datatype Build = Build(channel: Channel, parent: Option<BuildId>)

  /** A client-made file of a build (patch/default or signature/default): its row
      and, once finalized, the content and size found in the object store. */
  datatype ClientFile<+T> =
    | Missing
    | Uploading
    | Ready(content: T, size: nat)
    | Broken

  datatype Format = Zip | Tar | TarGz | TarBz2
}
