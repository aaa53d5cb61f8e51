/** The consumer itself: a long-lived object holding its configuration, its
    ignore list and its current logging group, acting on an Environment. */
module Consumption {
  import opened Base
  import opened Sorting
  import opened Platform
  import opened Parsers
  import opened Records
  import opened Pipeline
  import opened Properties

  /** Why a consumer cannot be set up. */
  datatype ConsumerError = DirectoryNotSet | DirectoryMissing(path: Path) | NoParsers

  /** What the scan of the consumption directory must produce: every regular
      file not on the ignore list, once, with the mtime it is listed with. */
  ghost predicate IsListing(files: seq<(Path, Time)>, inbox: map<Path, Entry>, ignore: seq<Path>) {
    && (forall i :: 0 <= i < |files| ==>
          && files[i].0 in inbox
          && inbox[files[i].0].RegularFile?
          && files[i].0 !in ignore
          && files[i].1 == inbox[files[i].0].mtime)
    && (forall p :: p in inbox && inbox[p].RegularFile? && p !in ignore ==>
          exists i :: 0 <= i < |files| && files[i].0 == p)
    && DistinctPaths(files)
  }

  class Consumer {
    const consume: Path
    const scratch: Path
    const parsers: seq<Declaration>
    const ext: Externals
    var ignore: seq<Path>
    var loggingGroup: Option<Token>

    function Cfg(): Config {
      Config(parsers, ext)
    }

    /** The object as it stands once every check of NewConsumer has passed. */
    constructor (consume: Path, scratch: Path, parsers: seq<Declaration>, ext: Externals)
      ensures this.consume == consume && this.scratch == scratch
      ensures this.parsers == parsers && this.ext == ext
      ensures ignore == [] && loggingGroup == None
    {
      this.consume, this.scratch, this.parsers, this.ext := consume, scratch, parsers, ext;
      ignore := [];
      loggingGroup := None;
    }

    /** The scan of consume_new_files: regular files not on the ignore list,
        with their mtimes, in whatever order the directory yields them. */
    method ListCandidates(env: Environment) returns (files: seq<(Path, Time)>)
      ensures IsListing(files, env.inbox, ignore)
    {
      files := [];
      var rest := env.inbox.Keys;
      while rest != {}
        invariant rest <= env.inbox.Keys
        invariant forall i :: 0 <= i < |files| ==>
          && files[i].0 in env.inbox
          && files[i].0 !in rest
          && env.inbox[files[i].0].RegularFile?
          && files[i].0 !in ignore
          && files[i].1 == env.inbox[files[i].0].mtime
        invariant forall p :: p in env.inbox && p !in rest && env.inbox[p].RegularFile? && p !in ignore ==>
          exists i :: 0 <= i < |files| && files[i].0 == p
        invariant forall i, j :: 0 <= i < j < |files| ==> files[i].0 != files[j].0
        decreases rest
      {
        var p :| p in rest;
        var entry := env.inbox[p];
        if entry.RegularFile? && p !in ignore {
          ghost var before := files;
          files := files + [(p, entry.mtime)];
          forall q | q in env.inbox && q !in rest - {p} && env.inbox[q].RegularFile? && q !in ignore
            ensures exists i :: 0 <= i < |files| && files[i].0 == q
          {
            if q == p {
              assert files[|files| - 1].0 == q;
            } else {
              var i :| 0 <= i < |before| && before[i].0 == q;
              assert files[i] == before[i];
            }
          }
        }
        rest := rest - {p};
      }
    }

    /** consume_new_files. `settled` is the consumption directory as it is after
        the settle delay; `listed` is what the scan before the delay found. */
    method ConsumeNewFiles(env: Environment, settled: map<Path, Entry>)
      returns (end: PassEnd, ghost listed: seq<(Path, Time)>)
      modifies this, env
      ensures IsListing(listed, old(env.inbox), old(ignore))
      ensures var r := ConsumePass(Cfg(), old(env.View()), old(ignore), old(loggingGroup), listed, settled);
              && env.View() == r.world
              && ignore == r.ignore
              && loggingGroup == r.group
              && end == r.end
    {
      var files := ListCandidates(env);
      listed := files;
      if files == [] {
        return Completed, listed;
      }
      var todo := SortBy(files, MtimeOf);
      env.Settle(settled);
      end := ConsumeSorted(env, todo);
    }

    /** The for loop of consume_new_files, over the files oldest first. */
    method ConsumeSorted(env: Environment, todo: seq<(Path, Time)>) returns (end: PassEnd)
      modifies this, env
      ensures var r := RunPass(Cfg(), old(env.View()), old(ignore), old(loggingGroup), todo);
              && env.View() == r.world
              && ignore == r.ignore
              && loggingGroup == r.group
              && end == r.end
    {
      ghost var w0, ignore0, group0 := env.View(), ignore, loggingGroup;
      var i := 0;
      while i < |todo|
        invariant 0 <= i <= |todo|
        invariant var r := RunPass(Cfg(), env.View(), ignore, loggingGroup, todo[i..]);
                  var r0 := RunPass(Cfg(), w0, ignore0, group0, todo);
                  r.world == r0.world && r.ignore == r0.ignore && r.group == r0.group && r.end == r0.end
        decreases |todo| - i
      {
        var (file, mtime) := todo[i];
        assert todo[i..][1..] == todo[i + 1..];
        if file !in env.inbox {
          // os.path.getmtime raises FileNotFoundError
          return Aborted(file);
        }
        if env.inbox[file].mtime == mtime {
          ghost var w, ignore', group := env.View(), ignore, loggingGroup;
          var verdict := TryConsumeFile(env, file);
          if verdict == OsError {
            return Aborted(file);
          }
          PassStepAttempt(Cfg(), w, ignore', group, todo[i..]);
          if verdict == NotConsumed {
            ignore := ignore + [file];
          }
        }
        i := i + 1;
      }
      end := Completed;
    }

    /** try_consume_file. */
    method TryConsumeFile(env: Environment, file: Path) returns (verdict: Verdict)
      modifies this`loggingGroup, env
      ensures Step(verdict, env.View(), loggingGroup) == Attempt(Cfg(), old(env.View()), old(loggingGroup), file)
    {
      if !ext.titleMatches(file) {
        return NotConsumed;
      }
      var duplicate := IsDuplicate(env, file);
      if duplicate.None? {
        return OsError;
      }
      if duplicate.value {
        return NotConsumed;
      }
      var parserClass := GetParserClass(file);
      if parserClass.None? {
        return NotConsumed;
      }
      assert Attempt(Cfg(), env.View(), loggingGroup, file) == Extract(Cfg(), env.View(), file, parserClass.value);
      verdict := ConsumeWith(env, file, parserClass.value);
    }

    /** The rest of try_consume_file once a parser class is chosen: a fresh
        logging group and the started notification; then thumbnail, date and
        text, where a ParseError leads to the parser's clean-up alone; otherwise
        store, clean-up, deletion of the source and the finished notification,
        in that order. */
    method ConsumeWith(env: Environment, file: Path, parserClass: ParserClass) returns (verdict: Verdict)
      requires IsRegularFile(env.View(), file)
      modifies this`loggingGroup, env
      ensures Step(verdict, env.View(), loggingGroup) == Extract(Cfg(), old(env.View()), file, parserClass)
    {
      ghost var w0 := env.View();
      var group := env.FreshToken();
      loggingGroup := Some(group);
      env.Emit(Started(file, group));
      ghost var started := env.View();
      assert started == w0.(tokens := group + 1, events := w0.events + [Started(file, group)]);
      var run := ext.parse(parserClass, file);
      var thumbnail := run.thumbnail;
      if thumbnail.ParseError? {
        env.Emit(ParserCleanup(file));
        return NotConsumed;
      }
      var date := run.date;
      if date.ParseError? {
        env.Emit(ParserCleanup(file));
        return NotConsumed;
      }
      var text := run.text;
      if text.ParseError? {
        env.Emit(ParserCleanup(file));
        return NotConsumed;
      }
      var id := Store(env, text.value, file, thumbnail.value, date.value);
      ghost var stored := env.View();
      env.Emit(ParserCleanup(file));
      CleanupDoc(env, file);
      env.Emit(Finished(id, group));
      assert env.View() == stored.(inbox := stored.inbox - {file},
                                   events := stored.events + [ParserCleanup(file), Unlinked(file), Finished(id, group)]);
      return Consumed;
    }

    /** _get_parser_class: asks every declaration, keeps the acceptances in
        registration order and takes the heaviest, the earliest on a tie. */
    method GetParserClass(doc: Path) returns (r: Option<ParserClass>)
      ensures r == ParserFor(Cfg(), doc)
      ensures r.None? <==> forall i :: 0 <= i < |parsers| ==> parsers[i](doc).None?
      ensures r.Some? ==>
        var options := Accepted(parsers, doc);
        options != [] && r.value == options[Heaviest(options)].parser
    {
      var options: seq<Candidate> := [];
      for i := 0 to |parsers|
        invariant options == Accepted(parsers[..i], doc)
      {
        assert parsers[..i + 1][..i] == parsers[..i];
        var answer := parsers[i](doc);
        if answer.Some? {
          options := options + [answer.value];
        }
      }
      assert parsers[..|parsers|] == parsers;
      ChooseIsHeaviest(options);
      if options == [] {
        return None;
      }
      r := Some(SortBy(options, NegatedWeight)[0].parser);
    }

    /** _store: creates the record, then tags it, then writes the two
        encrypted artifacts. */
    method Store(env: Environment, text: string, doc: Path, thumbnail: Thumb, date: Option<Time>) returns (id: nat)
      requires IsRegularFile(env.View(), doc)
      modifies env
      ensures id == |old(env.documents)|
      ensures env.View() == Stored(ext, old(env.View()), text, doc, thumbnail, date)
    {
      var info := ext.fileInfo(doc);
      var entry := env.inbox[doc];
      var created := CreatedAt(info.created, date, entry.mtime);
      id := env.CreateDocument(Record(ext, text, entry.content, info, created));
      var relevant := RelevantTags(ext.matchTags(text), info.tags);
      ghost var record := Record(ext, text, entry.content, info, created);
      if relevant != {} {
        env.AddTags(id, relevant);
        assert record.tags + relevant == relevant;
      }
      assert env.documents == old(env.documents) + [record.(tags := relevant)];
      env.WriteArtifact(Original(id), ext.encrypt(entry.content));
      env.WriteArtifact(Thumbnail(id), ext.encrypt(thumbnail.image));
    }

    /** _cleanup_doc: deletes the source file. */
    method CleanupDoc(env: Environment, doc: Path)
      requires doc in env.inbox
      modifies env
      ensures env.View() == old(env.View()).(inbox := old(env.inbox) - {doc}, events := old(env.events) + [Unlinked(doc)])
    {
      env.Unlink(doc);
    }

    /** _is_duplicate: None when the file cannot be opened (open raises),
        otherwise whether a stored document has the checksum of its bytes. */
    method IsDuplicate(env: Environment, doc: Path) returns (r: Option<bool>)
      ensures r.Some? <==> doc in env.inbox && env.inbox[doc].RegularFile?
      ensures r.Some? ==>
        (r.value <==> exists i :: 0 <= i < |env.documents| && env.documents[i].checksum == ext.md5(env.inbox[doc].content))
    {
      if doc !in env.inbox || !env.inbox[doc].RegularFile? {
        return None;
      }
      var checksum := ext.md5(env.inbox[doc].content);
      r := Some(HasChecksum(env.documents, checksum));
    }
  }

  /** Consumer.__init__: makes the scratch directory, then refuses an unset or
      missing consumption directory and an empty parser registry. */
  method NewConsumer(env: Environment, consume: Path, scratch: Path, declarations: seq<Declaration>, ext: Externals)
    returns (r: Result<Consumer, ConsumerError>)
    modifies env
    ensures env.View() == old(env.View()).(dirs := old(env.dirs) + {scratch})
    ensures consume == "" ==> r == Failure(DirectoryNotSet)
    ensures consume != "" && !Exists(env.View(), consume) ==> r == Failure(DirectoryMissing(consume))
    ensures consume != "" && Exists(env.View(), consume) && declarations == [] ==> r == Failure(NoParsers)
    ensures r.Success? <==> consume != "" && Exists(env.View(), consume) && declarations != []
    ensures r.Success? ==>
      && fresh(r.value)
      && r.value.consume == consume && r.value.scratch == scratch
      && r.value.parsers == declarations && r.value.ext == ext
      && r.value.ignore == [] && r.value.loggingGroup == None
  {
    MakeDirs(env, [scratch]);
    assert (set d | d in [scratch]) == {scratch};
    if consume == "" {
      return Failure(DirectoryNotSet);
    }
    if consume !in env.dirs && consume !in env.inbox {
      return Failure(DirectoryMissing(consume));
    }
    if declarations == [] {
      return Failure(NoParsers);
    }
    var c := new Consumer(consume, scratch, declarations, ext);
    return Success(c);
  }

  /** make_dirs: creates each directory; one that already exists is not an error. */
  method MakeDirs(env: Environment, dirs: seq<Path>)
    modifies env
    ensures forall d :: d in dirs ==> d in env.dirs
    ensures env.dirs == old(env.dirs) + (set d | d in dirs)
    ensures env.View() == old(env.View()).(dirs := env.dirs)
    ensures (forall d :: d in dirs ==> d in old(env.dirs)) ==> env.View() == old(env.View())
  {
    for i := 0 to |dirs|
      invariant env.View() == old(env.View()).(dirs := old(env.dirs) + (set d | d in dirs[..i]))
    {
      assert dirs[..i + 1] == dirs[..i] + [dirs[i]];
      env.MakeDir(dirs[i]);
    }
    assert dirs[..|dirs|] == dirs;
  }
}
