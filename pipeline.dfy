/** The consumption pipeline as functions of the world: one attempt on one
    file, and one pass over the consumption directory. The Consumer class is
    proved to compute exactly these. */
module Pipeline {
  import opened Base
  import opened Sorting
  import opened Platform
  import opened Parsers
  import opened Records

  /** The result of one parser call: a value, or a ParseError. */
  datatype Outcome<T> = Produced(value: T) | ParseError(message: string)

  /** The thumbnail a parser renders: the scratch file and its bytes. */
  datatype Thumb = Thumb(path: Path, image: Bytes)

  /** What an instance of a parser class does for one file: get_thumbnail,
      get_date and get_text, each of which may raise ParseError. */
  datatype ParseRun = ParseRun(thumbnail: Outcome<Thumb>, date: Outcome<Option<Time>>, text: Outcome<string>)

  predicate Raises(run: ParseRun) {
    run.thumbnail.ParseError? || run.date.ParseError? || run.text.ParseError?
  }

  /** Code the consumer calls but does not contain. */
  datatype Externals = Externals(
    titleMatches: Path -> bool,              // re.match(FileInfo.REGEXES["title"], path)
    fileInfo: Path -> FileInfo,              // FileInfo.from_path
    md5: Bytes -> Checksum,                  // hashlib.md5(...).hexdigest()
    matchTags: string -> seq<Tag>,           // Tag.match_all
    encrypt: Bytes -> Bytes,                 // GnuPG.encrypted
    parse: (ParserClass, Path) -> ParseRun)  // an instance of the class, made for the path

  /** What a consumer is configured with for its lifetime. */
  datatype Config = Config(parsers: seq<Declaration>, ext: Externals)

  /** How an attempt ends: True, False, or an OSError escaping to the caller. */
  datatype Verdict = Consumed | NotConsumed | OsError

  /** An attempt's verdict, the world afterwards and the consumer's logging group afterwards. */
  datatype Step = Step(verdict: Verdict, world: World, group: Option<Token>)

  /** Whether the store holds a document with this checksum. */
  predicate HasChecksum(docs: seq<Document>, checksum: Checksum) {
    exists d :: d in docs && d.checksum == checksum
  }

  /** The parser the consumer uses for a file, if any. */
  function ParserFor(c: Config, file: Path): Option<ParserClass> {
    Choose(Accepted(c.parsers, file))
  }

  /** A document built from a file, before it has any tags. */
  function Record(ext: Externals, text: string, file: Bytes, info: FileInfo, created: Time): Document {
    Document(info.correspondent, info.title, text, info.extension, ext.md5(file), created, created, {})
  }

  /** The world after the store step: the record with its tags, and the two
      encrypted artifacts. */
  function Stored(ext: Externals, w: World, text: string, file: Path, thumb: Thumb, date: Option<Time>): World
    requires IsRegularFile(w, file)
  {
    var entry := w.inbox[file];
    var info := ext.fileInfo(file);
    var id := |w.documents|;
    var doc := Record(ext, text, entry.content, info, CreatedAt(info.created, date, entry.mtime))
                 .(tags := RelevantTags(ext.matchTags(text), info.tags));
    w.(documents := w.documents + [doc],
       events := w.events + [Created(id)],
       media := w.media[Original(id) := ext.encrypt(entry.content)][Thumbnail(id) := ext.encrypt(thumb.image)])
  }

  /** One attempt to consume `file`, as try_consume_file makes it. */
  function Attempt(c: Config, w: World, group: Option<Token>, file: Path): Step {
    if !c.ext.titleMatches(file) then Step(NotConsumed, w, group)
    else if !IsRegularFile(w, file) then Step(OsError, w, group)
    else if HasChecksum(w.documents, c.ext.md5(w.inbox[file].content)) then Step(NotConsumed, w, group)
    else
      match ParserFor(c, file)
      case None => Step(NotConsumed, w, group)
      case Some(cls) => Extract(c, w, file, cls)
  }

  /** The part of an attempt after a parser class has been chosen: a fresh
      logging group, the started notification, extraction, and then either the
      clean-up alone or store, clean-up, unlink and the finished notification. */
  function Extract(c: Config, w: World, file: Path, cls: ParserClass): Step
    requires IsRegularFile(w, file)
  {
    var t := w.tokens;
    var started := w.(tokens := t + 1, events := w.events + [Started(file, t)]);
    var run := c.ext.parse(cls, file);
    if Raises(run) then
      Step(NotConsumed, started.(events := started.events + [ParserCleanup(file)]), Some(t))
    else
      var id := |w.documents|;
      var stored := Stored(c.ext, started, run.text.value, file, run.thumbnail.value, run.date.value);
      Step(Consumed,
           stored.(inbox := stored.inbox - {file},
                   events := stored.events + [ParserCleanup(file), Unlinked(file), Finished(id, t)]),
           Some(t))
  }

  /** A file that was attempted during a pass, with the mtime it was listed with,
      and whether its attempt returned True. Only attempts that return are
      recorded: an attempt that raises OSError ends the pass as Aborted(file)
      and leaves no record, and neither does a listed file that has gone. */
  datatype Attempted = Attempted(file: Path, mtime: Time, consumed: bool)

  /** How a pass ends: after every listed file, or by an OSError at a file. */
  datatype PassEnd = Completed | Aborted(file: Path)

  datatype Pass = Pass(world: World, ignore: seq<Path>, group: Option<Token>, end: PassEnd, attempts: seq<Attempted>)

  function MtimeOf(f: (Path, Time)): int {
    f.1
  }

  /** Whether a file listed with mtime `m` has vanished or been modified since. */
  predicate Touched(w: World, p: Path, m: Time) {
    p !in w.inbox || w.inbox[p].mtime != m
  }

  /** No path is listed twice. */
  ghost predicate DistinctPaths(files: seq<(Path, Time)>) {
    forall i, j :: 0 <= i < j < |files| ==> files[i].0 != files[j].0
  }

  /** The loop of consume_new_files over the files still to do, oldest first. */
  function RunPass(c: Config, w: World, ignore: seq<Path>, group: Option<Token>, todo: seq<(Path, Time)>): Pass
    decreases |todo|
  {
    if todo == [] then Pass(w, ignore, group, Completed, [])
    else
      var (file, mtime) := todo[0];
      if file !in w.inbox then Pass(w, ignore, group, Aborted(file), [])
      else if w.inbox[file].mtime != mtime then RunPass(c, w, ignore, group, todo[1..])
      else
        var s := Attempt(c, w, group, file);
        if s.verdict == OsError then Pass(s.world, ignore, s.group, Aborted(file), [])
        else
          var consumed := s.verdict == Consumed;
          var rest := RunPass(c, s.world, if consumed then ignore else ignore + [file], s.group, todo[1..]);
          rest.(attempts := [Attempted(file, mtime, consumed)] + rest.attempts)
  }

  /** A whole pass: `listed` is what the scan found, `settled` the directory
      after the settle delay. An empty listing ends the pass before the delay. */
  function ConsumePass(c: Config, w: World, ignore: seq<Path>, group: Option<Token>,
                       listed: seq<(Path, Time)>, settled: map<Path, Entry>): Pass
  {
    if listed == [] then Pass(w, ignore, group, Completed, [])
    else RunPass(c, w.(inbox := settled), ignore, group, SortBy(listed, MtimeOf))
  }

  /** The files a pass adds to the ignore list: those whose attempt returned False. */
  function Rejected(attempts: seq<Attempted>): seq<Path> {
    if attempts == [] then []
    else (if attempts[0].consumed then [] else [attempts[0].file]) + Rejected(attempts[1..])
  }

  function ConsumedCount(attempts: seq<Attempted>): nat {
    if attempts == [] then 0
    else (if attempts[0].consumed then 1 else 0) + ConsumedCount(attempts[1..])
  }
}
