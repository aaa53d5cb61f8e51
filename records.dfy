/** How a document record is assembled from what the file name, the parser
    and the file itself provide. */
module Records {
  import opened Base

  /** What FileInfo.from_path derives from a path. */
  datatype FileInfo = FileInfo(
    title: string,
    correspondent: Option<string>,
    tags: seq<Tag>,
    extension: string,
    created: Option<Time>)

  /** The creation date of a document: the date in its file name, failing that
      the date the parser found, failing that the file's modification time. */
  function CreatedAt(fromName: Option<Time>, fromParser: Option<Time>, mtime: Time): Time {
    match fromName
    case Some(t) => t
    case None =>
      match fromParser
      case Some(t) => t
      case None => mtime
  }

  /** The tags a document receives: those matched in its text together with
      those named in its file name, each once. */
  function RelevantTags(matched: seq<Tag>, fromName: seq<Tag>): (r: set<Tag>)
    ensures forall t :: t in r <==> t in matched || t in fromName
    ensures r == {} <==> matched == [] && fromName == []
  {
    var r := set t | t in matched + fromName;
    assert matched != [] ==> matched[0] in r;
    assert fromName != [] ==> fromName[0] in r;
    r
  }
}
