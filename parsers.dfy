/** Parser selection: every registered declaration is asked whether it can
    handle a file, and the heaviest of those that accept is used. */
module Parsers {
  import opened Base
  import opened Sorting

  /** A parser class, known by its name. */
  datatype ParserClass = ParserClass(name: string)

  /** What an accepting declaration answers: the class to use and its weight. */
  datatype Candidate = Candidate(parser: ParserClass, weight: int)

  /** A receiver of the consumer-declaration signal: given a path it either
      declines (None) or accepts with a candidate. */
  type Declaration = Path -> Option<Candidate>

  /** The answers of the accepting declarations, in registration order. */
  function Accepted(decls: seq<Declaration>, doc: Path): (r: seq<Candidate>)
    ensures |r| <= |decls|
    ensures r == [] <==> forall i :: 0 <= i < |decls| ==> decls[i](doc).None?
    ensures forall i :: 0 <= i < |decls| && decls[i](doc).Some? ==> decls[i](doc).value in r
    ensures forall c :: c in r ==> exists i :: 0 <= i < |decls| && decls[i](doc) == Some(c)
  {
    if decls == [] then []
    else
      var prev := Accepted(decls[..|decls| - 1], doc);
      assert forall i :: 0 <= i < |decls| - 1 ==> decls[..|decls| - 1][i] == decls[i];
      match decls[|decls| - 1](doc)
      case Some(c) => prev + [c]
      case None => prev
  }

  /** One more declaration adds its answer, if any, at the end. */
  lemma {:induction false} AcceptedGrows(decls: seq<Declaration>, doc: Path)
    requires decls != []
    ensures Accepted(decls, doc) ==
      Accepted(decls[..|decls| - 1], doc) + (if decls[|decls| - 1](doc).Some? then [decls[|decls| - 1](doc).value] else [])
  {
  }

  /** The options found among the first declarations are the first options. */
  lemma {:induction false} AcceptedPrefix(decls: seq<Declaration>, doc: Path, i: nat)
    requires i <= |decls|
    ensures Accepted(decls[..i], doc) <= Accepted(decls, doc)
    decreases |decls| - i
  {
    if i < |decls| {
      var n := |decls|;
      var init := decls[..n - 1];
      assert init[..i] == decls[..i];
      AcceptedPrefix(init, doc, i);
      AcceptedGrows(decls, doc);
    } else {
      assert decls[..i] == decls;
    }
  }

  /** An option found among all but the last declaration keeps its place. */
  lemma {:induction false} AcceptedFromInit(decls: seq<Declaration>, doc: Path, k: nat, j: nat)
    requires decls != [] && j < |decls| - 1
    requires k < |Accepted(decls[..|decls| - 1], doc)|
    requires decls[..|decls| - 1][j](doc) == Some(Accepted(decls[..|decls| - 1], doc)[k])
    requires |Accepted(decls[..|decls| - 1][..j], doc)| == k
    ensures k < |Accepted(decls, doc)| && decls[j](doc) == Some(Accepted(decls, doc)[k])
    ensures |Accepted(decls[..j], doc)| == k
  {
    var init := decls[..|decls| - 1];
    AcceptedGrows(decls, doc);
    assert init[j] == decls[j];
    assert init[..j] == decls[..j];
  }

  /** An option not found among all but the last declaration is the last one's answer. */
  lemma {:induction false} AcceptedFromLast(decls: seq<Declaration>, doc: Path, k: nat)
    requires decls != [] && |Accepted(decls[..|decls| - 1], doc)| <= k < |Accepted(decls, doc)|
    ensures decls[|decls| - 1](doc) == Some(Accepted(decls, doc)[k])
    ensures |Accepted(decls[..|decls| - 1], doc)| == k
  {
    AcceptedGrows(decls, doc);
  }

  /** Registration order is kept, one option per accepting declaration: the
      k-th option is the answer of a declaration `i` with exactly k accepting
      declarations before it. */
  lemma {:induction false} AcceptedFrom(decls: seq<Declaration>, doc: Path, k: nat) returns (i: nat)
    requires k < |Accepted(decls, doc)|
    ensures i < |decls|
    ensures decls[i](doc) == Some(Accepted(decls, doc)[k])
    ensures |Accepted(decls[..i], doc)| == k
  {
    var init := decls[..|decls| - 1];
    if k < |Accepted(init, doc)| {
      i := AcceptedFrom(init, doc, k);
      AcceptedFromInit(decls, doc, k, i);
    } else {
      AcceptedFromLast(decls, doc, k);
      i := |decls| - 1;
      assert decls[..i] == init;
    }
  }

  function NegatedWeight(c: Candidate): int {
    -c.weight
  }

  /** The reference choice: the first candidate, in registration order, whose
      weight is the largest. */
  function Heaviest(options: seq<Candidate>): (k: nat)
    requires options != []
    ensures k < |options|
    ensures forall j :: 0 <= j < |options| ==> options[j].weight <= options[k].weight
    ensures forall j :: 0 <= j < k ==> options[j].weight < options[k].weight
  {
    FirstMin(options, NegatedWeight)
  }

  /** What the consumer does with the options: sort them by weight, highest
      first, with Python's stable sort, and take the parser of the head. */
  function Choose(options: seq<Candidate>): Option<ParserClass> {
    if options == [] then None
    else Some(SortBy(options, NegatedWeight)[0].parser)
  }

  /** An acceptance among the first `i` declarations is one of the first
      options found by them. */
  lemma {:induction false} AcceptedIndexBefore(decls: seq<Declaration>, doc: Path, i: nat, j: nat) returns (m: nat)
    requires j < i <= |decls| && decls[j](doc).Some?
    ensures m < |Accepted(decls[..i], doc)| && m < |Accepted(decls, doc)|
    ensures Accepted(decls, doc)[m] == decls[j](doc).value
  {
    var before := Accepted(decls[..i], doc);
    assert decls[..i][j] == decls[j];
    assert decls[j](doc).value in before;
    m :| 0 <= m < |before| && before[m] == decls[j](doc).value;
    AcceptedPrefix(decls, doc, i);
  }

  /** The tie rule in terms of the declarations: the chosen class is the answer
      of a declaration `i` at least as heavy as every acceptance, and every
      declaration registered before `i` either declines or is strictly lighter. */
  lemma {:induction false} ChosenDeclaration(decls: seq<Declaration>, doc: Path) returns (i: nat)
    requires Accepted(decls, doc) != []
    ensures i < |decls| && decls[i](doc).Some?
    ensures Choose(Accepted(decls, doc)) == Some(decls[i](doc).value.parser)
    ensures forall j :: 0 <= j < |decls| && decls[j](doc).Some? ==>
              decls[j](doc).value.weight <= decls[i](doc).value.weight
    ensures forall j :: 0 <= j < i && decls[j](doc).Some? ==>
              decls[j](doc).value.weight < decls[i](doc).value.weight
  {
    var options := Accepted(decls, doc);
    var k := Heaviest(options);
    ChooseIsHeaviest(options);
    i := AcceptedFrom(decls, doc, k);
    forall j | 0 <= j < |decls| && decls[j](doc).Some?
      ensures decls[j](doc).value.weight <= decls[i](doc).value.weight
    {
      var m := AcceptedIndexBefore(decls, doc, |decls|, j);
    }
    forall j | 0 <= j < i && decls[j](doc).Some?
      ensures decls[j](doc).value.weight < decls[i](doc).value.weight
    {
      var m := AcceptedIndexBefore(decls, doc, i, j);
    }
  }

  /** The stable sort makes the consumer's choice the reference choice. */
  lemma ChooseIsHeaviest(options: seq<Candidate>)
    ensures options == [] ==> Choose(options) == None
    ensures options != [] ==> Choose(options) == Some(options[Heaviest(options)].parser)
  {
    if options != [] {
      SortHeadIsFirstMin(options, NegatedWeight);
    }
  }
}
