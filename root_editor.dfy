/**
 * The older mapping editor kept in the root component's data: a JSKOS
 * mapping being built (`jskos`) and a `reversed` flag that swaps which
 * physical side the left and right columns address.
 *
 * Concepts are matched by plain URI equality. Each method returns the
 * success flag the source returns; its effect is specified by a function of
 * the old state, about which the laws at the end are proved.
 */
module RootEditor {
  import opened Jskos

  /** The `jskos` object: two member sets and their schemes. */
  datatype Sheet = Sheet(from: seq<Item>, to: seq<Item>, fromScheme: Option<Item>, toScheme: Option<Item>)

  /** The editor's whole state. */
  datatype Editor = Editor(jskos: Sheet, reversed: bool)

  const Initial: Editor := Editor(Sheet([], [], None, None), false)

  /** `_fromTo`: whether a column addresses the physical "from" side. */
  function AddressesFrom(e: Editor, isLeft: bool): (r: bool)
    ensures r <==> isLeft != e.reversed
  {
    if isLeft then !e.reversed else e.reversed
  }

  /** getConcepts: the member set of the addressed side. */
  function Concepts(e: Editor, isLeft: bool): (r: seq<Item>)
    ensures r == if isLeft != e.reversed then e.jskos.from else e.jskos.to
  {
    if AddressesFrom(e, isLeft) then e.jskos.from else e.jskos.to
  }

  /** getScheme: the scheme of the addressed side. */
  function Scheme(e: Editor, isLeft: bool): (r: Option<Item>)
    ensures r == if isLeft != e.reversed then e.jskos.fromScheme else e.jskos.toScheme
  {
    if AddressesFrom(e, isLeft) then e.jskos.fromScheme else e.jskos.toScheme
  }

  function WithConcepts(e: Editor, isLeft: bool, s: seq<Item>): (r: Editor)
    ensures r.reversed == e.reversed && Concepts(r, isLeft) == s
    ensures Concepts(r, !isLeft) == Concepts(e, !isLeft)
    ensures Scheme(r, isLeft) == Scheme(e, isLeft) && Scheme(r, !isLeft) == Scheme(e, !isLeft)
  {
    if AddressesFrom(e, isLeft) then e.(jskos := e.jskos.(from := s)) else e.(jskos := e.jskos.(to := s))
  }

  function WithScheme(e: Editor, isLeft: bool, scheme: Option<Item>): (r: Editor)
    ensures r.reversed == e.reversed && Scheme(r, isLeft) == scheme
    ensures Scheme(r, !isLeft) == Scheme(e, !isLeft)
    ensures Concepts(r, isLeft) == Concepts(e, isLeft) && Concepts(r, !isLeft) == Concepts(e, !isLeft)
  {
    if AddressesFrom(e, isLeft) then e.(jskos := e.jskos.(fromScheme := scheme))
    else e.(jskos := e.jskos.(toScheme := scheme))
  }

  /** added: some concept of the addressed side has the concept's URI. */
  function Added(e: Editor, concept: Item, isLeft: bool): (r: bool)
    ensures r <==> exists i :: 0 <= i < |Concepts(e, isLeft)| && Concepts(e, isLeft)[i].uri == concept.uri
  {
    IndexOfUri(Concepts(e, isLeft), concept.uri) != -1
  }

  /**
   * Whether checkScheme can answer: reading the URI of a missing scheme
   * fails, unless the addressed side has no scheme to compare with.
   */
  predicate SchemeComparable(e: Editor, scheme: Option<Item>, isLeft: bool) {
    Scheme(e, isLeft).None? || scheme.Some?
  }

  /** checkScheme: the addressed side has no scheme or one with the same URI. */
  function CheckScheme(e: Editor, scheme: Option<Item>, isLeft: bool): (r: bool)
    requires SchemeComparable(e, scheme, isLeft)
    ensures Scheme(e, isLeft).None? ==> r
    ensures Scheme(e, isLeft).Some? ==> (r <==> Scheme(e, isLeft).value.uri == scheme.value.uri)
  {
    var actual := Scheme(e, isLeft);
    actual.None? || actual.value.uri == scheme.value.uri
  }

  /**
   * reversible: the "to" side holds at most one concept, that is the
   * column whose side equals `reversed` shows at most one.
   */
  function Reversible(e: Editor): (r: bool)
    ensures r <==> |Concepts(e, e.reversed)| <= 1
  {
    |e.jskos.to| <= 1
  }

  /**
   * The state and result of `add`. A foreign scheme is refused and changes
   * nothing. Otherwise the scheme is written first, so a refused duplicate
   * still rewrites it; a new concept replaces a non-empty physical "from"
   * side and is appended elsewhere. A missing scheme is written as such on a
   * side that has none.
   */
  function AfterAdd(e: Editor, concept: Item, scheme: Option<Item>, isLeft: bool): (r: (Editor, bool))
    requires SchemeComparable(e, scheme, isLeft)
    ensures !CheckScheme(e, scheme, isLeft) ==> r == (e, false)
    ensures CheckScheme(e, scheme, isLeft) ==>
              && Scheme(r.0, isLeft) == scheme
              && Scheme(r.0, !isLeft) == Scheme(e, !isLeft)
              && Concepts(r.0, !isLeft) == Concepts(e, !isLeft)
              && r.0.reversed == e.reversed
              && r.1 == !Added(e, concept, isLeft)
    ensures CheckScheme(e, scheme, isLeft) && Added(e, concept, isLeft) ==>
              Concepts(r.0, isLeft) == Concepts(e, isLeft)
    ensures CheckScheme(e, scheme, isLeft) && !Added(e, concept, isLeft) ==>
              Added(r.0, concept, isLeft)
              && Concepts(r.0, isLeft) == if AddressesFrom(e, isLeft) && Concepts(e, isLeft) != []
                                          then [concept] else Concepts(e, isLeft) + [concept]
  {
    if !CheckScheme(e, scheme, isLeft) then (e, false)
    else
      var e' := WithScheme(e, isLeft, scheme);
      if Added(e', concept, isLeft) then (e', false)
      else if AddressesFrom(e', isLeft) && |e'.jskos.from| != 0 then
        (WithConcepts(e', isLeft, [concept]), true)
      else
        var grown := Concepts(e', isLeft) + [concept];
        assert grown[|grown| - 1] == concept;
        (WithConcepts(e', isLeft, grown), true)
  }

  /**
   * The state and result of `remove`: an unknown URI is refused; otherwise
   * the first match leaves the addressed side and a side left empty loses its
   * scheme, whichever side it is.
   */
  function AfterRemove(e: Editor, concept: Item, isLeft: bool): (r: (Editor, bool))
    ensures r.1 == Added(e, concept, isLeft)
    ensures !r.1 ==> r.0 == e
    ensures r.1 ==>
              var s := Concepts(e, isLeft);
              && (exists i :: 0 <= i < |s| && s[i].uri == concept.uri
                              && (forall j :: 0 <= j < i ==> s[j].uri != concept.uri)
                              && Concepts(r.0, isLeft) == s[..i] + s[i + 1..])
              && Scheme(r.0, isLeft) == (if Concepts(r.0, isLeft) == [] then None else Scheme(e, isLeft))
              && Concepts(r.0, !isLeft) == Concepts(e, !isLeft) && Scheme(r.0, !isLeft) == Scheme(e, !isLeft)
              && r.0.reversed == e.reversed
  {
    var s := Concepts(e, isLeft);
    var i := IndexOfUri(s, concept.uri);
    if i == -1 then (e, false)
    else
      var rest := RemoveAt(s, i);
      var e' := WithConcepts(e, isLeft, rest);
      if |rest| == 0 then (WithScheme(e', isLeft, None), true) else (e', true)
  }

  /** The physical sides and their schemes exchanged. */
  function Swapped(j: Sheet): Sheet {
    Sheet(j.to, j.from, j.toScheme, j.fromScheme)
  }

  /**
   * The state and result of `reverse`: refused while "to" holds several
   * concepts; otherwise the flag flips and the physical sides swap, so both
   * columns keep showing what they showed.
   */
  function AfterReverse(e: Editor): (r: (Editor, bool))
    ensures r.1 == Reversible(e)
    ensures !r.1 ==> r.0 == e
    ensures r.1 ==> r.0.reversed == !e.reversed && r.0.jskos == Swapped(e.jskos)
    ensures forall isLeft :: Concepts(r.0, isLeft) == Concepts(e, isLeft) && Scheme(r.0, isLeft) == Scheme(e, isLeft)
  {
    if !Reversible(e) then (e, false)
    else (Editor(Swapped(e.jskos), !e.reversed), true)
  }

  // ------------------------------------------------------------ the helper object

  class RootMapping {
    var jskos: Sheet
    var reversed: bool

    function State(): Editor
      reads this
    {
      Editor(jskos, reversed)
    }

    constructor ()
      ensures State() == Initial
    {
      jskos := Sheet([], [], None, None);
      reversed := false;
    }

    /** `_fromTo` on the current state. */
    function FromTo(isLeft: bool): (r: bool)
      reads this
      ensures r <==> isLeft != reversed
    {
      AddressesFrom(State(), isLeft)
    }

    method Add(concept: Item, scheme: Option<Item>, isLeft: bool) returns (ok: bool)
      requires SchemeComparable(State(), scheme, isLeft)
      modifies this`jskos
      ensures (State(), ok) == AfterAdd(old(State()), concept, scheme, isLeft)
    {
      if CheckScheme(State(), scheme, isLeft) {
        if FromTo(isLeft) {
          jskos := jskos.(fromScheme := scheme);
        } else {
          jskos := jskos.(toScheme := scheme);
        }
      } else {
        return false;
      }
      if Added(State(), concept, isLeft) {
        return false;
      }
      if FromTo(isLeft) && |jskos.from| != 0 {
        jskos := jskos.(from := [concept]);
        return true;
      }
      if FromTo(isLeft) {
        jskos := jskos.(from := jskos.from + [concept]);
      } else {
        jskos := jskos.(to := jskos.to + [concept]);
      }
      return true;
    }

    method Remove(concept: Item, isLeft: bool) returns (ok: bool)
      modifies this`jskos
      ensures (State(), ok) == AfterRemove(old(State()), concept, isLeft)
    {
      var members := if FromTo(isLeft) then jskos.from else jskos.to;
      var index := IndexOfUri(members, concept.uri);
      if index == -1 {
        return false;
      }
      members := RemoveAt(members, index);
      if FromTo(isLeft) {
        jskos := jskos.(from := members);
      } else {
        jskos := jskos.(to := members);
      }
      if |members| == 0 {
        if FromTo(isLeft) {
          jskos := jskos.(fromScheme := None);
        } else {
          jskos := jskos.(toScheme := None);
        }
      }
      return true;
    }

    method Reverse() returns (ok: bool)
      modifies this
      ensures (State(), ok) == AfterReverse(old(State()))
    {
      if !Reversible(State()) {
        return false;
      }
      reversed := !reversed;
      jskos := jskos.(to := jskos.from, from := jskos.to);
      jskos := jskos.(toScheme := jskos.fromScheme, fromScheme := jskos.toScheme);
      return true;
    }
  }

  // ------------------------------------------------------------ laws

  /** The physical "from" side never holds more than one concept. */
  predicate FromSingle(e: Editor) {
    |e.jskos.from| <= 1
  }

  /** add keeps the "from" side down to at most one concept. */
  lemma {:induction false} AddKeepsFromSingle(e: Editor, concept: Item, scheme: Option<Item>, isLeft: bool)
    requires FromSingle(e) && SchemeComparable(e, scheme, isLeft)
    ensures FromSingle(AfterAdd(e, concept, scheme, isLeft).0)
  {
    var r := AfterAdd(e, concept, scheme, isLeft).0;
    if CheckScheme(e, scheme, isLeft) && !Added(e, concept, isLeft) && AddressesFrom(e, isLeft) {
      assert Concepts(r, isLeft) == r.jskos.from;
    } else if CheckScheme(e, scheme, isLeft) && !AddressesFrom(e, isLeft) {
      assert Concepts(r, !isLeft) == r.jskos.from;
    }
  }

  /** remove keeps the "from" side down to at most one concept. */
  lemma {:induction false} RemoveKeepsFromSingle(e: Editor, concept: Item, isLeft: bool)
    requires FromSingle(e)
    ensures FromSingle(AfterRemove(e, concept, isLeft).0)
  {
    var q := AfterRemove(e, concept, isLeft);
    if q.1 && AddressesFrom(e, isLeft) {
      assert Concepts(q.0, isLeft) == q.0.jskos.from;
    } else if q.1 {
      assert Concepts(q.0, !isLeft) == q.0.jskos.from;
    }
  }

  /** Every operation keeps the "from" side down to at most one concept. */
  lemma {:induction false} OperationsKeepFromSingle(e: Editor, concept: Item, scheme: Option<Item>, isLeft: bool)
    requires FromSingle(e) && SchemeComparable(e, scheme, isLeft)
    ensures FromSingle(AfterAdd(e, concept, scheme, isLeft).0)
    ensures FromSingle(AfterRemove(e, concept, isLeft).0)
    ensures FromSingle(AfterReverse(e).0)
  {
    AddKeepsFromSingle(e, concept, scheme, isLeft);
    RemoveKeepsFromSingle(e, concept, isLeft);
  }

  /**
   * Two successful reversals restore the sheet and the flag; while "from"
   * holds at most one concept the second reversal always succeeds.
   */
  lemma ReverseTwice(e: Editor)
    requires AfterReverse(e).1
    ensures AfterReverse(AfterReverse(e).0).1 <==> FromSingle(e)
    ensures AfterReverse(AfterReverse(e).0).1 ==> AfterReverse(AfterReverse(e).0).0 == e
  {
  }

  /** After a successful add the concept is on the addressed side. */
  lemma AddThenAdded(e: Editor, concept: Item, scheme: Option<Item>, isLeft: bool)
    requires SchemeComparable(e, scheme, isLeft) && AfterAdd(e, concept, scheme, isLeft).1
    ensures Added(AfterAdd(e, concept, scheme, isLeft).0, concept, isLeft)
  {
  }
}
