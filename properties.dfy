/** What the pipeline guarantees, stated over Pipeline.Attempt and Pipeline.RunPass. */
module Properties {
  import opened Base
  import opened Sorting
  import opened Platform
  import opened Parsers
  import opened Pipeline

  /** The parser class the reference choice picks for a file. */
  function HeaviestClass(c: Config, file: Path): ParserClass
    requires Accepted(c.parsers, file) != []
  {
    var options := Accepted(c.parsers, file);
    options[Heaviest(options)].parser
  }

  lemma ParserForIsHeaviest(c: Config, file: Path)
    ensures ParserFor(c, file).None? <==> forall i :: 0 <= i < |c.parsers| ==> c.parsers[i](file).None?
    ensures ParserFor(c, file).Some? ==> ParserFor(c, file) == Some(HeaviestClass(c, file))
  {
    ChooseIsHeaviest(Accepted(c.parsers, file));
  }

  // ---- one attempt ----

  lemma AttemptRejectsUnmatchedName(c: Config, w: World, g: Option<Token>, file: Path)
    requires !c.ext.titleMatches(file)
    ensures Attempt(c, w, g, file) == Step(NotConsumed, w, g)
  {
  }

  lemma AttemptRaisesOnUnreadable(c: Config, w: World, g: Option<Token>, file: Path)
    requires c.ext.titleMatches(file) && !IsRegularFile(w, file)
    ensures Attempt(c, w, g, file) == Step(OsError, w, g)
  {
  }

  lemma AttemptRejectsDuplicate(c: Config, w: World, g: Option<Token>, file: Path, i: nat)
    requires c.ext.titleMatches(file) && IsRegularFile(w, file)
    requires i < |w.documents| && w.documents[i].checksum == c.ext.md5(w.inbox[file].content)
    ensures Attempt(c, w, g, file) == Step(NotConsumed, w, g)
  {
    assert w.documents[i] in w.documents;
  }

  lemma AttemptRejectsWithoutParser(c: Config, w: World, g: Option<Token>, file: Path)
    requires c.ext.titleMatches(file) && IsRegularFile(w, file)
    requires !HasChecksum(w.documents, c.ext.md5(w.inbox[file].content))
    requires forall i :: 0 <= i < |c.parsers| ==> c.parsers[i](file).None?
    ensures Attempt(c, w, g, file) == Step(NotConsumed, w, g)
  {
  }

  /** Past the three gates, an attempt is extraction with the heaviest parser. */
  lemma AttemptExtracts(c: Config, w: World, g: Option<Token>, file: Path)
    requires c.ext.titleMatches(file) && IsRegularFile(w, file)
    requires !HasChecksum(w.documents, c.ext.md5(w.inbox[file].content))
    requires Accepted(c.parsers, file) != []
    ensures Attempt(c, w, g, file) == Extract(c, w, file, HeaviestClass(c, file))
  {
    ParserForIsHeaviest(c, file);
  }

  /** What consuming `file` with parser class `cls` leaves behind: one document
      appended, the source deleted after the record exists, the parser cleaned
      up once, and started before finished under one fresh logging group. */
  ghost predicate SuccessOutcome(c: Config, w: World, file: Path, cls: ParserClass, s: Step) {
    var run := c.ext.parse(cls, file);
    var id := |w.documents|;
    && IsRegularFile(w, file)
    && run.thumbnail.Produced?
    && s.verdict == Consumed
    && s.group == Some(w.tokens)
    && |s.world.documents| == id + 1
    && s.world.documents[..id] == w.documents
    && s.world.inbox == w.inbox - {file}
    && s.world.events == w.events + [Started(file, w.tokens), Created(id), ParserCleanup(file), Unlinked(file), Finished(id, w.tokens)]
    && s.world.tokens == w.tokens + 1
    && s.world.dirs == w.dirs
    && s.world.media == w.media[Original(id) := c.ext.encrypt(w.inbox[file].content)]
                                       [Thumbnail(id) := c.ext.encrypt(run.thumbnail.value.image)]
  }

  lemma ExtractSuccess(c: Config, w: World, file: Path, cls: ParserClass)
    requires IsRegularFile(w, file)
    requires !Raises(c.ext.parse(cls, file))
    ensures SuccessOutcome(c, w, file, cls, Extract(c, w, file, cls))
  {
    var id := |w.documents|;
    var s := Extract(c, w, file, cls);
    assert s.world.events == w.events + [Started(file, w.tokens)] + [Created(id)] + [ParserCleanup(file), Unlinked(file), Finished(id, w.tokens)];
  }

  lemma ExtractFailure(c: Config, w: World, file: Path, cls: ParserClass)
    requires IsRegularFile(w, file)
    requires Raises(c.ext.parse(cls, file))
    ensures Extract(c, w, file, cls) ==
      Step(NotConsumed,
           w.(tokens := w.tokens + 1, events := w.events + [Started(file, w.tokens), ParserCleanup(file)]),
           Some(w.tokens))
  {
  }

  /** A ParseError: one fresh logging group, the started notification and a
      single clean-up; the source stays and no document is created. */
  lemma AttemptParseFailure(c: Config, w: World, g: Option<Token>, file: Path)
    requires c.ext.titleMatches(file) && IsRegularFile(w, file)
    requires !HasChecksum(w.documents, c.ext.md5(w.inbox[file].content))
    requires Accepted(c.parsers, file) != []
    requires Raises(c.ext.parse(HeaviestClass(c, file), file))
    ensures Attempt(c, w, g, file) ==
      Step(NotConsumed,
           w.(tokens := w.tokens + 1, events := w.events + [Started(file, w.tokens), ParserCleanup(file)]),
           Some(w.tokens))
  {
    AttemptExtracts(c, w, g, file);
    ExtractFailure(c, w, file, HeaviestClass(c, file));
  }

  /** A consumed file: the outcome of extracting it with the heaviest class. */
  lemma AttemptSuccess(c: Config, w: World, g: Option<Token>, file: Path)
    requires c.ext.titleMatches(file) && IsRegularFile(w, file)
    requires !HasChecksum(w.documents, c.ext.md5(w.inbox[file].content))
    requires Accepted(c.parsers, file) != []
    requires !Raises(c.ext.parse(HeaviestClass(c, file), file))
    ensures SuccessOutcome(c, w, file, HeaviestClass(c, file), Attempt(c, w, g, file))
  {
    AttemptExtracts(c, w, g, file);
    ExtractSuccess(c, w, file, HeaviestClass(c, file));
  }

  lemma ConsumedDocument(c: Config, w: World, g: Option<Token>, file: Path)
    requires c.ext.titleMatches(file) && IsRegularFile(w, file)
    requires !HasChecksum(w.documents, c.ext.md5(w.inbox[file].content))
    requires Accepted(c.parsers, file) != []
    requires !Raises(c.ext.parse(HeaviestClass(c, file), file))
    ensures var docs := Attempt(c, w, g, file).world.documents;
            var run := c.ext.parse(HeaviestClass(c, file), file);
            var info := c.ext.fileInfo(file);
            var entry := w.inbox[file];
            && |docs| == |w.documents| + 1
            && var d := docs[|w.documents|];
            && d.title == info.title
            && d.correspondent == info.correspondent
            && d.fileType == info.extension
            && d.content == run.text.value
            && d.checksum == c.ext.md5(entry.content)
            && (info.created.Some? ==> d.created == info.created.value)
            && (info.created.None? && run.date.value.Some? ==> d.created == run.date.value.value)
            && (info.created.None? && run.date.value.None? ==> d.created == entry.mtime)
            && d.modified == d.created
            && (forall t :: t in d.tags <==> t in c.ext.matchTags(run.text.value) || t in info.tags)
  {
    ParserForIsHeaviest(c, file);
  }

  /** The gates, all of which must pass for a file to be consumed. */
  lemma AttemptConsumedIff(c: Config, w: World, g: Option<Token>, file: Path)
    ensures Attempt(c, w, g, file).verdict == Consumed <==>
      && c.ext.titleMatches(file)
      && IsRegularFile(w, file)
      && !HasChecksum(w.documents, c.ext.md5(w.inbox[file].content))
      && Accepted(c.parsers, file) != []
      && !Raises(c.ext.parse(HeaviestClass(c, file), file))
  {
    ParserForIsHeaviest(c, file);
  }

  /** What any attempt may change: the consumed file leaves the directory and
      one document is appended; nothing else of the directory or the store moves. */
  lemma AttemptFrame(c: Config, w: World, g: Option<Token>, file: Path)
    ensures var s := Attempt(c, w, g, file);
            && s.world.dirs == w.dirs
            && s.world.inbox == (if s.verdict == Consumed then w.inbox - {file} else w.inbox)
            && |s.world.documents| == |w.documents| + (if s.verdict == Consumed then 1 else 0)
            && s.world.documents[..|w.documents|] == w.documents
            && (s.verdict == OsError ==> s.world == w && s.group == g)
  {
  }

  lemma AttemptKeepsChecksumsUnique(c: Config, w: World, g: Option<Token>, file: Path)
    requires UniqueChecksums(w.documents)
    ensures UniqueChecksums(Attempt(c, w, g, file).world.documents)
  {
    var s := Attempt(c, w, g, file);
    if s.verdict == Consumed {
      var docs := s.world.documents;
      var n := |w.documents|;
      AttemptFrame(c, w, g, file);
      assert docs[n].checksum == c.ext.md5(w.inbox[file].content);
      forall i | 0 <= i < n ensures docs[i].checksum != docs[n].checksum {
        assert docs[i] == w.documents[i];
        assert w.documents[i] in w.documents;
      }
    }
  }

  // ---- one pass ----

  lemma {:induction false} PassIgnore(c: Config, w: World, ignore: seq<Path>, g: Option<Token>, todo: seq<(Path, Time)>)
    ensures RunPass(c, w, ignore, g, todo).ignore == ignore + Rejected(RunPass(c, w, ignore, g, todo).attempts)
    decreases |todo|
  {
    if todo != [] {
      var (file, mtime) := todo[0];
      if file in w.inbox {
        if w.inbox[file].mtime != mtime {
          PassIgnore(c, w, ignore, g, todo[1..]);
        } else {
          var s := Attempt(c, w, g, file);
          AttemptFrame(c, w, g, file);
          if s.verdict != OsError {
            var consumed := s.verdict == Consumed;
            var ignore' := if consumed then ignore else ignore + [file];
            PassIgnore(c, s.world, ignore', s.group, todo[1..]);
            var rest := RunPass(c, s.world, ignore', s.group, todo[1..]);
            var a := [Attempted(file, mtime, consumed)] + rest.attempts;
            assert a[1..] == rest.attempts;
          }
        }
      }
    }
  }

  lemma {:induction false} PassAttemptsListed(c: Config, w: World, ignore: seq<Path>, g: Option<Token>, todo: seq<(Path, Time)>)
    ensures forall a :: a in RunPass(c, w, ignore, g, todo).attempts ==> (a.file, a.mtime) in todo
    decreases |todo|
  {
    if todo != [] {
      var (file, mtime) := todo[0];
      if file in w.inbox {
        if w.inbox[file].mtime != mtime {
          PassAttemptsListed(c, w, ignore, g, todo[1..]);
        } else {
          var s := Attempt(c, w, g, file);
          AttemptFrame(c, w, g, file);
          if s.verdict != OsError {
            var ignore' := if s.verdict == Consumed then ignore else ignore + [file];
            PassAttemptsListed(c, s.world, ignore', s.group, todo[1..]);
          }
        }
      }
    }
  }

  /** The records an attempt adds to the log that name a logging group. */
  ghost predicate GroupsLoggedAs(before: seq<Event>, after: seq<Event>, t: Token) {
    && before <= after
    && forall i :: |before| <= i < |after| && (after[i].Started? || after[i].Finished?) ==> after[i].group == t
  }

  /** A file's extraction opens a logging group no earlier record used, tags its
      own records with it and keeps the counter above every logged group. */
  lemma ExtractGroup(c: Config, w: World, file: Path, cls: ParserClass)
    requires IsRegularFile(w, file)
    requires GroupsBelowCounter(w)
    ensures var s := Extract(c, w, file, cls);
            && s.group == Some(w.tokens)
            && (forall e :: e in w.events && (e.Started? || e.Finished?) ==> e.group != w.tokens)
            && GroupsLoggedAs(w.events, s.world.events, w.tokens)
            && w.tokens < s.world.tokens
            && GroupsBelowCounter(s.world)
  {
    var s := Extract(c, w, file, cls);
    var t := w.tokens;
    var run := c.ext.parse(cls, file);
    var started := w.events + [Started(file, t)];
    if !Raises(run) {
      assert s.world.events == started + [Created(|w.documents|), ParserCleanup(file), Unlinked(file), Finished(|w.documents|, t)];
    }
    assert GroupsLoggedAs(w.events, s.world.events, t);
    forall e | e in s.world.events && (e.Started? || e.Finished?) ensures e.group < s.world.tokens {
      var i :| 0 <= i < |s.world.events| && s.world.events[i] == e;
      if i < |w.events| {
        assert e in w.events;
      }
    }
  }

  /** The invariant behind the freshness of uuid4 groups: an attempt keeps every
      logged group below the counter, and when it changes the current group the
      new one was never logged before. */
  lemma AttemptGroup(c: Config, w: World, g: Option<Token>, file: Path)
    requires GroupsBelowCounter(w)
    ensures var s := Attempt(c, w, g, file);
            && GroupsBelowCounter(s.world)
            && w.tokens <= s.world.tokens
            && (s.group == g || (s.group == Some(w.tokens) && GroupsLoggedAs(w.events, s.world.events, w.tokens)))
            && (s.group != g ==> forall e :: e in w.events && (e.Started? || e.Finished?) ==> e.group != s.group.value)
  {
    var s := Attempt(c, w, g, file);
    if s.world != w || s.group != g {
      AttemptExtracts(c, w, g, file);
      ExtractGroup(c, w, file, HeaviestClass(c, file));
    }
  }

  /** A whole pass keeps every logged group below the counter: each group it
      opens is new to the log. */
  lemma {:induction false} PassGroups(c: Config, w: World, ignore: seq<Path>, g: Option<Token>, todo: seq<(Path, Time)>)
    requires GroupsBelowCounter(w)
    ensures var r := RunPass(c, w, ignore, g, todo);
            && GroupsBelowCounter(r.world)
            && w.tokens <= r.world.tokens
            && (r.group == g || (r.group.Some? && w.tokens <= r.group.value < r.world.tokens))
    decreases |todo|
  {
    if todo != [] {
      var (file, mtime) := todo[0];
      if file in w.inbox {
        if w.inbox[file].mtime != mtime {
          PassGroups(c, w, ignore, g, todo[1..]);
        } else {
          var s := Attempt(c, w, g, file);
          AttemptGroup(c, w, g, file);
          if s.verdict != OsError {
            var ignore' := if s.verdict == Consumed then ignore else ignore + [file];
            PassGroups(c, s.world, ignore', s.group, todo[1..]);
            if s.group != g {
              AttemptExtracts(c, w, g, file);
              ExtractGroup(c, w, file, HeaviestClass(c, file));
            }
          }
        }
      }
    }
  }

  ghost predicate InListingOrder(attempts: seq<Attempted>) {
    forall i, j :: 0 <= i < j < |attempts| ==> attempts[i].mtime <= attempts[j].mtime
  }

  /** One step of the loop over an unchanged file, for the imperative consumer. */
  lemma PassStepAttempt(c: Config, w: World, ignore: seq<Path>, g: Option<Token>, todo: seq<(Path, Time)>)
    requires todo != [] && todo[0].0 in w.inbox && w.inbox[todo[0].0].mtime == todo[0].1
    requires Attempt(c, w, g, todo[0].0).verdict != OsError
    ensures var s := Attempt(c, w, g, todo[0].0);
            var consumed := s.verdict == Consumed;
            var r := RunPass(c, s.world, if consumed then ignore else ignore + [todo[0].0], s.group, todo[1..]);
            RunPass(c, w, ignore, g, todo) == r.(attempts := [Attempted(todo[0].0, todo[0].1, consumed)] + r.attempts)
  {
  }

  /** Files are attempted oldest first (among the recorded attempts; an attempt
      that aborts the pass is not recorded, see Attempted). */
  lemma {:induction false} PassOrder(c: Config, w: World, ignore: seq<Path>, g: Option<Token>, todo: seq<(Path, Time)>)
    requires SortedBy(todo, MtimeOf)
    ensures InListingOrder(RunPass(c, w, ignore, g, todo).attempts)
    decreases |todo|
  {
    if todo != [] {
      var (file, mtime) := todo[0];
      var tail := todo[1..];
      assert SortedBy(tail, MtimeOf);
      if file in w.inbox {
        if w.inbox[file].mtime != mtime {
          assert RunPass(c, w, ignore, g, todo) == RunPass(c, w, ignore, g, tail);
          PassOrder(c, w, ignore, g, tail);
        } else {
          var s := Attempt(c, w, g, file);
          AttemptFrame(c, w, g, file);
          if s.verdict != OsError {
            var ignore' := if s.verdict == Consumed then ignore else ignore + [file];
            PassOrder(c, s.world, ignore', s.group, tail);
            PassAttemptsListed(c, s.world, ignore', s.group, tail);
            var rest := RunPass(c, s.world, ignore', s.group, tail).attempts;
            forall k | 0 <= k < |rest| ensures mtime <= rest[k].mtime {
              assert rest[k] in rest;
              var j :| 0 <= j < |tail| && tail[j] == (rest[k].file, rest[k].mtime);
              assert todo[j + 1] == tail[j];
            }
          }
        }
      }
    }
  }

  /** A file that vanished or was modified since it was listed is neither
      attempted nor added to the ignore list. */
  lemma {:induction false} PassSkipsTouched(c: Config, w: World, ignore: seq<Path>, g: Option<Token>,
                                            todo: seq<(Path, Time)>, p: Path)
    requires forall i :: 0 <= i < |todo| && todo[i].0 == p ==> Touched(w, p, todo[i].1)
    ensures forall a :: a in RunPass(c, w, ignore, g, todo).attempts ==> a.file != p
    ensures p !in ignore ==> p !in RunPass(c, w, ignore, g, todo).ignore
    decreases |todo|
  {
    if todo != [] {
      var (file, mtime) := todo[0];
      var tail := todo[1..];
      assert forall i :: 0 <= i < |tail| ==> tail[i] == todo[i + 1];
      if file in w.inbox {
        if w.inbox[file].mtime != mtime {
          PassSkipsTouched(c, w, ignore, g, tail, p);
        } else {
          assert file != p by { assert todo[0].0 == file; }
          var s := Attempt(c, w, g, file);
          AttemptFrame(c, w, g, file);
          if s.verdict != OsError {
            var ignore' := if s.verdict == Consumed then ignore else ignore + [file];
            forall i | 0 <= i < |tail| && tail[i].0 == p ensures Touched(s.world, p, tail[i].1) {
              assert Touched(w, p, todo[i + 1].1);
            }
            PassSkipsTouched(c, s.world, ignore', s.group, tail, p);
          }
        }
      }
    }
  }

  /** Documents are only appended, one per consumed file, and no two ever share a checksum. */
  lemma {:induction false} PassDocuments(c: Config, w: World, ignore: seq<Path>, g: Option<Token>, todo: seq<(Path, Time)>)
    requires UniqueChecksums(w.documents)
    ensures var r := RunPass(c, w, ignore, g, todo);
            && |r.world.documents| == |w.documents| + ConsumedCount(r.attempts)
            && r.world.documents[..|w.documents|] == w.documents
            && UniqueChecksums(r.world.documents)
    decreases |todo|
  {
    if todo != [] {
      var (file, mtime) := todo[0];
      if file in w.inbox {
        if w.inbox[file].mtime != mtime {
          PassDocuments(c, w, ignore, g, todo[1..]);
        } else {
          var s := Attempt(c, w, g, file);
          AttemptFrame(c, w, g, file);
          AttemptKeepsChecksumsUnique(c, w, g, file);
          if s.verdict != OsError {
            var consumed := s.verdict == Consumed;
            var ignore' := if consumed then ignore else ignore + [file];
            PassDocuments(c, s.world, ignore', s.group, todo[1..]);
            var rest := RunPass(c, s.world, ignore', s.group, todo[1..]);
            var a := [Attempted(file, mtime, consumed)] + rest.attempts;
            assert a[1..] == rest.attempts;
            var n := |w.documents|;
            assert rest.world.documents[..n] == rest.world.documents[..|s.world.documents|][..n];
          }
        }
      }
    }
  }

  /** The files whose attempt consumed them. */
  function ConsumedFiles(attempts: seq<Attempted>): set<Path> {
    set a | a in attempts && a.consumed :: a.file
  }

  lemma ConsumedFilesCons(a: Attempted, attempts: seq<Attempted>)
    ensures ConsumedFiles([a] + attempts) == (if a.consumed then {a.file} else {}) + ConsumedFiles(attempts)
  {
    var all := [a] + attempts;
    assert forall b :: b in all <==> b == a || b in attempts;
  }

  /** One step of PassInbox, on the inbox alone. */
  lemma InboxAfterAttempt(before: map<Path, Entry>, after: map<Path, Entry>, a: Attempted,
                          rest: seq<Attempted>, final: map<Path, Entry>)
    requires a.file in before
    requires after == (if a.consumed then before - {a.file} else before)
    requires final == after - ConsumedFiles(rest)
    requires forall b :: b in rest ==> b.file in after
    ensures final == before - ConsumedFiles([a] + rest)
    ensures forall b :: b in [a] + rest ==> b.file in before
  {
    ConsumedFilesCons(a, rest);
    if a.consumed {
      assert before - {a.file} - ConsumedFiles(rest) == before - ({a.file} + ConsumedFiles(rest));
    } else {
      assert {} + ConsumedFiles(rest) == ConsumedFiles(rest);
    }
  }

  /** A pass removes from the inbox exactly the files it consumed, and only
      attempts files that were in it. */
  lemma {:induction false} PassInbox(c: Config, w: World, ignore: seq<Path>, g: Option<Token>, todo: seq<(Path, Time)>)
    ensures var r := RunPass(c, w, ignore, g, todo);
            && r.world.inbox == w.inbox - ConsumedFiles(r.attempts)
            && (forall a :: a in r.attempts ==> a.file in w.inbox)
    decreases |todo|
  {
    if todo != [] {
      var (file, mtime) := todo[0];
      if file in w.inbox {
        if w.inbox[file].mtime != mtime {
          PassInbox(c, w, ignore, g, todo[1..]);
        } else {
          var s := Attempt(c, w, g, file);
          AttemptFrame(c, w, g, file);
          if s.verdict != OsError {
            var consumed := s.verdict == Consumed;
            var ignore' := if consumed then ignore else ignore + [file];
            PassInbox(c, s.world, ignore', s.group, todo[1..]);
            var rest := RunPass(c, s.world, ignore', s.group, todo[1..]);
            InboxAfterAttempt(w.inbox, s.world.inbox, Attempted(file, mtime, consumed), rest.attempts, rest.world.inbox);
          }
        }
      }
    }
  }

  /** A pass that completes attempts every listed file still present with the
      listed mtime: a file is only passed over when it was modified or has gone. */
  lemma {:induction false} PassCoversUnchanged(c: Config, w: World, ignore: seq<Path>, g: Option<Token>,
                                               todo: seq<(Path, Time)>, k: nat)
    requires k < |todo|
    requires todo[k].0 in w.inbox && w.inbox[todo[k].0].mtime == todo[k].1
    requires RunPass(c, w, ignore, g, todo).end == Completed
    ensures exists a :: a in RunPass(c, w, ignore, g, todo).attempts && a.file == todo[k].0
    decreases |todo|
  {
    var p := todo[k].0;
    var (file, mtime) := todo[0];
    var tail := todo[1..];
    if w.inbox[file].mtime != mtime {
      assert k != 0;
      assert tail[k - 1] == todo[k];
      PassCoversUnchanged(c, w, ignore, g, tail, k - 1);
    } else {
      var s := Attempt(c, w, g, file);
      AttemptFrame(c, w, g, file);
      var consumed := s.verdict == Consumed;
      var ignore' := if consumed then ignore else ignore + [file];
      var rest := RunPass(c, s.world, ignore', s.group, tail);
      var att := [Attempted(file, mtime, consumed)] + rest.attempts;
      if file == p {
        assert att[0] in att;
      } else {
        assert tail[k - 1] == todo[k];
        PassCoversUnchanged(c, s.world, ignore', s.group, tail, k - 1);
        var a :| a in rest.attempts && a.file == p;
        assert a in att;
      }
    }
  }

  /** With no path listed twice, an attempted file has left the inbox exactly
      when its attempt consumed it. */
  lemma {:induction false} PassConsumedIff(c: Config, w: World, ignore: seq<Path>, g: Option<Token>, todo: seq<(Path, Time)>)
    requires DistinctPaths(todo)
    ensures var r := RunPass(c, w, ignore, g, todo);
            forall a :: a in r.attempts ==> (a.consumed <==> a.file !in r.world.inbox)
    decreases |todo|
  {
    if todo != [] {
      var (file, mtime) := todo[0];
      var tail := todo[1..];
      assert DistinctPaths(tail) by {
        forall i, j | 0 <= i < j < |tail| ensures tail[i].0 != tail[j].0 {
          assert tail[i] == todo[i + 1] && tail[j] == todo[j + 1];
        }
      }
      if file in w.inbox {
        if w.inbox[file].mtime != mtime {
          PassConsumedIff(c, w, ignore, g, tail);
        } else {
          var s := Attempt(c, w, g, file);
          AttemptFrame(c, w, g, file);
          if s.verdict != OsError {
            var consumed := s.verdict == Consumed;
            var ignore' := if consumed then ignore else ignore + [file];
            PassConsumedIff(c, s.world, ignore', s.group, tail);
            PassInbox(c, s.world, ignore', s.group, tail);
            PassAttemptsListed(c, s.world, ignore', s.group, tail);
            var rest := RunPass(c, s.world, ignore', s.group, tail);
            assert file !in ConsumedFiles(rest.attempts) by {
              forall a | a in rest.attempts ensures a.file != file {
                var j :| 0 <= j < |tail| && tail[j] == (a.file, a.mtime);
                assert todo[j + 1] == tail[j];
              }
            }
          }
        }
      }
    }
  }

  // ---- a whole pass, from the listing ----

  lemma ConsumePassProperties(c: Config, w: World, ignore: seq<Path>, g: Option<Token>,
                              listed: seq<(Path, Time)>, settled: map<Path, Entry>)
    requires UniqueChecksums(w.documents)
    ensures var r := ConsumePass(c, w, ignore, g, listed, settled);
            && (listed == [] ==> r == Pass(w, ignore, g, Completed, []))
            && r.ignore == ignore + Rejected(r.attempts)
            && InListingOrder(r.attempts)
            && (forall a :: a in r.attempts ==> (a.file, a.mtime) in listed)
            && |r.world.documents| == |w.documents| + ConsumedCount(r.attempts)
            && r.world.documents[..|w.documents|] == w.documents
            && UniqueChecksums(r.world.documents)
  {
    if listed != [] {
      var todo := SortBy(listed, MtimeOf);
      var w' := w.(inbox := settled);
      PassIgnore(c, w', ignore, g, todo);
      PassOrder(c, w', ignore, g, todo);
      PassAttemptsListed(c, w', ignore, g, todo);
      PassDocuments(c, w', ignore, g, todo);
      forall a | a in RunPass(c, w', ignore, g, todo).attempts ensures (a.file, a.mtime) in listed {
        assert (a.file, a.mtime) in multiset(todo);
      }
    }
  }

  lemma {:induction false} DistinctCountsOnce(s: seq<(Path, Time)>, x: (Path, Time))
    requires DistinctPaths(s)
    ensures multiset(s)[x] <= 1
  {
    if s != [] {
      var tail := s[1..];
      assert s == [s[0]] + tail;
      assert DistinctPaths(tail) by {
        forall i, j | 0 <= i < j < |tail| ensures tail[i].0 != tail[j].0 {
          assert tail[i] == s[i + 1] && tail[j] == s[j + 1];
        }
      }
      DistinctCountsOnce(tail, x);
      if x == s[0] {
        assert x !in tail by {
          forall j | 0 <= j < |tail| ensures tail[j] != x {
            assert tail[j] == s[j + 1];
          }
        }
      }
    }
  }

  /** Sorting a listing keeps its paths distinct. */
  lemma DistinctPathsPermuted(a: seq<(Path, Time)>, b: seq<(Path, Time)>)
    requires multiset(a) == multiset(b) && DistinctPaths(a)
    ensures DistinctPaths(b)
  {
    forall i, j | 0 <= i < j < |b| ensures b[i].0 != b[j].0 {
      if b[i].0 == b[j].0 {
        assert b[i] in multiset(a) && b[j] in multiset(a);
        var i' :| 0 <= i' < |a| && a[i'] == b[i];
        var j' :| 0 <= j' < |a| && a[j'] == b[j];
        if b[i] == b[j] {
          assert b == b[..j] + b[j..];
          assert b[i] in b[..j] && b[i] in b[j..];
          assert multiset(b)[b[i]] == multiset(b[..j])[b[i]] + multiset(b[j..])[b[i]];
          DistinctCountsOnce(a, b[i]);
        }
      }
    }
  }

  /** A completed pass attempts every listed file that is still in the settled
      inbox with the mtime it was listed with. */
  lemma ConsumePassCovers(c: Config, w: World, ignore: seq<Path>, g: Option<Token>,
                          listed: seq<(Path, Time)>, settled: map<Path, Entry>, i: nat)
    requires i < |listed|
    requires listed[i].0 in settled && settled[listed[i].0].mtime == listed[i].1
    requires ConsumePass(c, w, ignore, g, listed, settled).end == Completed
    ensures exists a :: a in ConsumePass(c, w, ignore, g, listed, settled).attempts && a.file == listed[i].0
  {
    var todo := SortBy(listed, MtimeOf);
    assert listed[i] in multiset(todo);
    var k :| 0 <= k < |todo| && todo[k] == listed[i];
    PassCoversUnchanged(c, w.(inbox := settled), ignore, g, todo, k);
  }

  /** A pass over a listing with distinct paths removes from the settled inbox
      exactly the consumed files, so an attempted file is still there exactly
      when its attempt returned False. */
  lemma ConsumePassInbox(c: Config, w: World, ignore: seq<Path>, g: Option<Token>,
                         listed: seq<(Path, Time)>, settled: map<Path, Entry>)
    requires DistinctPaths(listed)
    ensures var r := ConsumePass(c, w, ignore, g, listed, settled);
            && (listed != [] ==> r.world.inbox == settled - ConsumedFiles(r.attempts))
            && (forall a :: a in r.attempts ==> (a.consumed <==> a.file !in r.world.inbox))
  {
    if listed != [] {
      var todo := SortBy(listed, MtimeOf);
      var w' := w.(inbox := settled);
      DistinctPathsPermuted(listed, todo);
      PassInbox(c, w', ignore, g, todo);
      PassConsumedIff(c, w', ignore, g, todo);
    }
  }

  /** A whole pass keeps the logging-group invariant of the environment. */
  lemma ConsumePassGroups(c: Config, w: World, ignore: seq<Path>, g: Option<Token>,
                          listed: seq<(Path, Time)>, settled: map<Path, Entry>)
    requires GroupsBelowCounter(w)
    ensures var r := ConsumePass(c, w, ignore, g, listed, settled);
            && GroupsBelowCounter(r.world)
            && w.tokens <= r.world.tokens
            && (r.group == g || (r.group.Some? && w.tokens <= r.group.value < r.world.tokens))
  {
    if listed != [] {
      PassGroups(c, w.(inbox := settled), ignore, g, SortBy(listed, MtimeOf));
    }
  }

  /** The settle delay: a listed file whose mtime changed by the time it is re-read,
      or that vanished, is neither attempted nor ignored in this pass. */
  lemma ConsumePassSkipsModified(c: Config, w: World, ignore: seq<Path>, g: Option<Token>,
                                 listed: seq<(Path, Time)>, settled: map<Path, Entry>, p: Path)
    requires p !in ignore
    requires forall i :: 0 <= i < |listed| && listed[i].0 == p ==> p !in settled || settled[p].mtime != listed[i].1
    ensures var r := ConsumePass(c, w, ignore, g, listed, settled);
            (forall a :: a in r.attempts ==> a.file != p) && p !in r.ignore
  {
    if listed != [] {
      var todo := SortBy(listed, MtimeOf);
      var w' := w.(inbox := settled);
      forall i | 0 <= i < |todo| && todo[i].0 == p ensures Touched(w', p, todo[i].1) {
        assert todo[i] in multiset(listed);
        var j :| 0 <= j < |listed| && listed[j] == todo[i];
      }
      PassSkipsTouched(c, w', ignore, g, todo, p);
    }
  }
}
