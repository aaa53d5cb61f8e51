/** The environment the consumer acts on, made explicit: the directories that
    exist, the entries of the consumption directory, the stored documents with
    their encrypted artifacts, a log of effects and notifications, and the
    source of fresh correlation tokens. */
module Platform {
  import opened Base

  /** An entry of the consumption directory, with what os.stat reports. */
  datatype Entry =
    | RegularFile(content: Bytes, mtime: Time)
    | OtherEntry(mtime: Time)   // a sub-directory or anything else that is not a regular file

  /** A stored document record. Its identity is its position in the store. */
  datatype Document = Document(
    correspondent: Option<string>,
    title: string,
    content: string,
    fileType: string,
    checksum: Checksum,
    created: Time,
    modified: Time,
    tags: set<Tag>)

  /** The two encrypted files written for a document. */
  datatype Artifact = Original(doc: nat) | Thumbnail(doc: nat)

  /** What the consumer does that the outside world can observe, in order. */
  datatype Event =
    | Started(file: Path, group: Token)    // document_consumption_started
    | Created(doc: nat)                    // the document record was created
    | ParserCleanup(file: Path)            // the parser instance released its scratch files
    | Unlinked(file: Path)                 // the source file was deleted
    | Finished(doc: nat, group: Token)     // document_consumption_finished

  datatype World = World(
    dirs: set<Path>,
    inbox: map<Path, Entry>,
    documents: seq<Document>,
    media: map<Artifact, Bytes>,
    events: seq<Event>,
    tokens: nat)

  /** os.path.exists over the modelled part of the file system. */
  predicate Exists(w: World, p: Path) {
    p in w.dirs || p in w.inbox
  }

  predicate IsRegularFile(w: World, p: Path) {
    p in w.inbox && w.inbox[p].RegularFile?
  }

  /** The invariant the duplicate check exists to keep: no two documents share a checksum. */
  ghost predicate UniqueChecksums(docs: seq<Document>) {
    forall i, j :: 0 <= i < j < |docs| ==> docs[i].checksum != docs[j].checksum
  }

  /** Every logging group recorded in the log was handed out before the
      counter's current value, so the next token is one never logged. */
  ghost predicate GroupsBelowCounter(w: World) {
    forall e :: e in w.events && (e.Started? || e.Finished?) ==> e.group < w.tokens
  }

  class Environment {
    var dirs: set<Path>
    var inbox: map<Path, Entry>
    var documents: seq<Document>
    var media: map<Artifact, Bytes>
    var events: seq<Event>
    var tokens: nat

    ghost function View(): World
      reads this
    {
      World(dirs, inbox, documents, media, events, tokens)
    }

    constructor (w: World)
      ensures View() == w
    {
      dirs, inbox, documents, media, events, tokens :=
        w.dirs, w.inbox, w.documents, w.media, w.events, w.tokens;
    }

    /** os.makedirs of one directory; an existing directory is not an error. */
    method MakeDir(d: Path)
      modifies this
      ensures View() == old(View()).(dirs := old(dirs) + {d})
    {
      dirs := dirs + {d};
    }

    /** What the rest of the world did to the consumption directory while the
        consumer slept: `after` is the directory as it is afterwards. */
    method Settle(after: map<Path, Entry>)
      modifies this
      ensures View() == old(View()).(inbox := after)
    {
      inbox := after;
    }

    /** uuid.uuid4(): the counter's current value, after which the counter
        advances. While GroupsBelowCounter holds, no logged group equals it. */
    method FreshToken() returns (t: Token)
      modifies this
      ensures t == old(tokens)
      ensures View() == old(View()).(tokens := old(tokens) + 1)
      ensures GroupsBelowCounter(old(View())) ==>
                GroupsBelowCounter(View()) && forall e :: e in events && (e.Started? || e.Finished?) ==> e.group != t
    {
      t := tokens;
      tokens := tokens + 1;
    }

    method Emit(e: Event)
      modifies this
      ensures View() == old(View()).(events := old(events) + [e])
    {
      events := events + [e];
    }

    /** Document.objects.create: appends the record and returns its identity. */
    method CreateDocument(d: Document) returns (id: nat)
      modifies this
      ensures id == |old(documents)|
      ensures View() == old(View()).(documents := old(documents) + [d], events := old(events) + [Created(id)])
    {
      id := |documents|;
      documents := documents + [d];
      events := events + [Created(id)];
    }

    /** document.tags.add: associates tags with an existing record. */
    method AddTags(id: nat, tags: set<Tag>)
      requires id < |documents|
      modifies this
      ensures View() == old(View()).(documents := old(documents)[id := old(documents)[id].(tags := old(documents)[id].tags + tags)])
    {
      documents := documents[id := documents[id].(tags := documents[id].tags + tags)];
    }

    /** Writes an encrypted artifact, replacing any previous file of that name. */
    method WriteArtifact(a: Artifact, data: Bytes)
      modifies this
      ensures View() == old(View()).(media := old(media)[a := data])
    {
      media := media[a := data];
    }

    /** os.unlink of an entry of the consumption directory. */
    method Unlink(p: Path)
      requires p in inbox
      modifies this
      ensures View() == old(View()).(inbox := old(inbox) - {p}, events := old(events) + [Unlinked(p)])
    {
      inbox := inbox - {p};
      events := events + [Unlinked(p)];
    }
  }
}
