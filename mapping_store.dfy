/**
 * The mapping editor's store module: one editable mapping between concepts of
 * two schemes, the provenance snapshot `original` of a mapping loaded for
 * editing, and the refresh signal other views poll.
 *
 * The getters are functions of the mapping value. Each mutation that does more
 * than overwrite one field is specified by a function of the old state
 * (AfterAdd, AfterRemove, ...), whose contract states the editing rules; the
 * class methods change the fields step by step and are proved to reach that
 * state.
 *
 * `isLeft` picks the "from" side when true and the "to" side otherwise.
 */
module MappingStore {
  import opened Jskos
  import opened Registries

  /** The mapping the store starts from and `empty` restores. */
  const EmptyMapping: Mapping :=
    Mapping(Bundle(Some([]), None, None), Bundle(Some([]), None, None), None, None,
            [DefaultMappingType], None, None, None)

  /** Both sides carry a memberSet: the mutations read and write it directly. */
  predicate HasMemberSets(m: Mapping) {
    m.from.memberSet.Some? && m.to.memberSet.Some?
  }

  function Side(m: Mapping, isLeft: bool): Bundle {
    if isLeft then m.from else m.to
  }

  function Members(m: Mapping, isLeft: bool): seq<Item>
    requires HasMemberSets(m)
  {
    Side(m, isLeft).memberSet.value
  }

  /** Everything of a mapping but its sides and schemes. */
  predicate KeepsFields(a: Mapping, b: Mapping) {
    a.mappingType == b.mappingType && a.creator == b.creator
    && a.note == b.note && a.identifier == b.identifier
  }

  /** The side `!isLeft` and its scheme are the same in both mappings. */
  predicate KeepsOtherSide(a: Mapping, b: Mapping, isLeft: bool) {
    Side(a, !isLeft) == Side(b, !isLeft) && GetScheme(a, !isLeft) == GetScheme(b, !isLeft)
  }

  /** On side `isLeft` only memberSet may differ. */
  predicate KeepsOtherBundles(a: Mapping, b: Mapping, isLeft: bool) {
    Side(a, isLeft).memberList == Side(b, isLeft).memberList
    && Side(a, isLeft).memberChoice == Side(b, isLeft).memberChoice
  }

  function WithMembers(m: Mapping, isLeft: bool, s: seq<Item>): (r: Mapping)
    ensures Side(r, isLeft).memberSet == Some(s)
    ensures KeepsOtherSide(m, r, isLeft) && KeepsFields(m, r) && KeepsOtherBundles(m, r, isLeft)
    ensures GetScheme(r, isLeft) == GetScheme(m, isLeft)
  {
    if isLeft then m.(from := m.from.(memberSet := Some(s)))
    else m.(to := m.to.(memberSet := Some(s)))
  }

  function WithScheme(m: Mapping, isLeft: bool, scheme: Option<Item>): (r: Mapping)
    ensures GetScheme(r, isLeft) == scheme
    ensures KeepsOtherSide(m, r, isLeft) && KeepsFields(m, r) && Side(r, isLeft) == Side(m, isLeft)
  {
    if isLeft then m.(fromScheme := scheme) else m.(toScheme := scheme)
  }

  // ---------------------------------------------------------------- getters

  /** The scheme of one side; None means any scheme is accepted. */
  /** The scheme of one side: fromScheme on the left, toScheme on the right. */
  function GetScheme(m: Mapping, isLeft: bool): (r: Option<Item>)
    ensures isLeft ==> r == m.fromScheme
    ensures !isLeft ==> r == m.toScheme
  {
    if isLeft then m.fromScheme else m.toScheme
  }

  /** The concepts of one side: memberSet, else memberList, else memberChoice, else none. */
  function GetConcepts(m: Mapping, isLeft: bool): (r: seq<Item>)
    ensures Side(m, isLeft).memberSet.Some? ==> r == Side(m, isLeft).memberSet.value
    ensures Side(m, isLeft).memberSet.None? && Side(m, isLeft).memberList.Some? ==>
              r == Side(m, isLeft).memberList.value
    ensures var b := Side(m, isLeft);
            b.memberSet.None? && b.memberList.None? && b.memberChoice.Some? ==> r == b.memberChoice.value
    ensures var b := Side(m, isLeft);
            b.memberSet.None? && b.memberList.None? && b.memberChoice.None? ==> r == []
  {
    var b := Side(m, isLeft);
    if b.memberSet.Some? then b.memberSet.value
    else if b.memberList.Some? then b.memberList.value
    else if b.memberChoice.Some? then b.memberChoice.value
    else []
  }

  /** Whether a concept with the same URI is already in the side's memberSet. */
  function Added(m: Mapping, concept: Item, isLeft: bool): (r: bool)
    ensures r <==> Side(m, isLeft).memberSet.Some?
                   && exists i :: 0 <= i < |Side(m, isLeft).memberSet.value|
                                  && SameUri(Side(m, isLeft).memberSet.value[i], concept)
  {
    var b := Side(m, isLeft);
    b.memberSet.Some? && IndexOfUri(b.memberSet.value, concept.uri) != -1
  }

  /** A side accepts a scheme when it has none yet or the same one. */
  function CheckScheme(m: Mapping, scheme: Item, isLeft: bool): (r: bool)
    ensures GetScheme(m, isLeft).None? ==> r
    ensures GetScheme(m, isLeft).Some? ==> (r <==> GetScheme(m, isLeft).value.uri == scheme.uri)
  {
    var actual := GetScheme(m, isLeft);
    if actual.None? then true else SameUri(actual.value, scheme)
  }

  /** A concept can be added when it is given and not already on that side; the scheme plays no part. */
  function CanAdd(m: Mapping, concept: Option<Item>, scheme: Option<Item>, isLeft: bool): (r: bool)
    ensures r <==> concept.Some? && !Added(m, concept.value, isLeft)
  {
    if concept.None? then false
    else if Added(m, concept.value, isLeft) then false
    else true
  }

  // ------------------------------------------------- states after mutations

  /** The scheme `add` files a concept under: the given one, else the concept's first scheme. */
  function ResolveScheme(concept: Item, scheme: Option<Item>): (r: Option<Item>)
    ensures r.None? <==> scheme.None? && concept.inScheme == []
    ensures scheme.Some? ==> r == scheme
    ensures scheme.None? && r.Some? ==> r.value == concept.inScheme[0]
  {
    if scheme.Some? then scheme
    else if concept.inScheme != [] then Some(concept.inScheme[0])
    else None
  }

  /** The working mapping together with the provenance snapshot `original`. */
  datatype Draft = Draft(mapping: Mapping, original: Option<Mapping>)

  /**
   * The state after `add`: nothing changes without a resolvable scheme or for
   * a concept already present. Otherwise the "from" side becomes exactly the
   * concept; the "to" side grows by it at the end while its scheme matches and
   * restarts with it when the scheme differs; a restarted side drops
   * `original`. The side's scheme becomes the resolved one.
   */
  function AfterAdd(d: Draft, concept: Item, scheme: Option<Item>, isLeft: bool): (r: Draft)
    requires HasMemberSets(d.mapping)
    ensures HasMemberSets(r.mapping)
    ensures ResolveScheme(concept, scheme).None? || Added(d.mapping, concept, isLeft) ==> r == d
    ensures var s := ResolveScheme(concept, scheme);
            s.Some? && !Added(d.mapping, concept, isLeft) ==>
              && Added(r.mapping, concept, isLeft)
              && GetScheme(r.mapping, isLeft) == s
              && KeepsOtherSide(d.mapping, r.mapping, isLeft)
              && KeepsOtherBundles(d.mapping, r.mapping, isLeft)
              && KeepsFields(d.mapping, r.mapping)
    ensures var s := ResolveScheme(concept, scheme);
            s.Some? && !Added(d.mapping, concept, isLeft) && isLeft ==>
              && Members(r.mapping, true) == [concept]
              && r.original == (if Members(d.mapping, true) == [] && CheckScheme(d.mapping, s.value, true)
                                then d.original else None)
    ensures var s := ResolveScheme(concept, scheme);
            s.Some? && !Added(d.mapping, concept, isLeft) && !isLeft && CheckScheme(d.mapping, s.value, false) ==>
              Members(r.mapping, false) == Members(d.mapping, false) + [concept] && r.original == d.original
    ensures var s := ResolveScheme(concept, scheme);
            s.Some? && !Added(d.mapping, concept, isLeft) && !isLeft && !CheckScheme(d.mapping, s.value, false) ==>
              Members(r.mapping, false) == [concept] && r.original == None
  {
    var s := ResolveScheme(concept, scheme);
    if s.None? || Added(d.mapping, concept, isLeft) then d
    else
      var reset := (isLeft && |Members(d.mapping, true)| != 0) || !CheckScheme(d.mapping, s.value, isLeft);
      var members := if reset then [concept] else Members(d.mapping, isLeft) + [concept];
      var m := WithScheme(WithMembers(d.mapping, isLeft, members), isLeft, s);
      assert Side(m, isLeft).memberSet.value[|members| - 1] == concept;
      Draft(m, if reset then None else d.original)
  }

  /**
   * The mapping after `remove`: an absent URI changes nothing; otherwise the
   * first concept with that URI leaves the side, the rest keep their order,
   * and the scheme is dropped only when the "from" side becomes empty.
   */
  function AfterRemove(m: Mapping, concept: Item, isLeft: bool): (r: Mapping)
    requires HasMemberSets(m)
    ensures HasMemberSets(r)
    ensures !Added(m, concept, isLeft) ==> r == m
    ensures Added(m, concept, isLeft) ==>
              var s := Members(m, isLeft);
              && (exists i :: 0 <= i < |s| && s[i].uri == concept.uri
                              && (forall j :: 0 <= j < i ==> s[j].uri != concept.uri)
                              && Members(r, isLeft) == s[..i] + s[i + 1..])
              && |Members(r, isLeft)| == |s| - 1
              && GetScheme(r, isLeft) == (if isLeft && Members(r, isLeft) == [] then None else GetScheme(m, isLeft))
              && KeepsOtherSide(m, r, isLeft) && KeepsOtherBundles(m, r, isLeft) && KeepsFields(m, r)
  {
    var s := Members(m, isLeft);
    var i := IndexOfUri(s, concept.uri);
    if i == -1 then m
    else
      var rest := RemoveAt(s, i);
      var m' := WithMembers(m, isLeft, rest);
      if |rest| == 0 && isLeft then WithScheme(m', isLeft, None) else m'
  }

  /** The mapping after `removeAll`: the side is empty and has no scheme, whatever it held. */
  function AfterRemoveAll(m: Mapping, isLeft: bool): (r: Mapping)
    ensures HasMemberSets(m) ==> HasMemberSets(r)
    ensures Side(r, isLeft).memberSet == Some([]) && GetConcepts(r, isLeft) == []
    ensures GetScheme(r, isLeft).None?
    ensures KeepsOtherSide(m, r, isLeft) && KeepsOtherBundles(m, r, isLeft) && KeepsFields(m, r)
  {
    WithScheme(WithMembers(m, isLeft, []), isLeft, None)
  }

  /** The mapping after `setScheme`: only an empty side takes the new scheme. */
  function AfterSetScheme(m: Mapping, isLeft: bool, scheme: Option<Item>): (r: Mapping)
    ensures GetConcepts(m, isLeft) != [] ==> r == m
    ensures GetConcepts(m, isLeft) == [] ==>
              GetScheme(r, isLeft) == scheme && Side(r, isLeft) == Side(m, isLeft)
              && KeepsOtherSide(m, r, isLeft) && KeepsFields(m, r)
  {
    if |GetConcepts(m, isLeft)| == 0 then WithScheme(m, isLeft, scheme) else m
  }

  /** The mapping after `switch`: each side, with its scheme, takes the other's place. */
  function Switched(m: Mapping): (r: Mapping)
    ensures forall isLeft :: Side(r, isLeft) == Side(m, !isLeft) && GetScheme(r, isLeft) == GetScheme(m, !isLeft)
    ensures KeepsFields(m, r)
  {
    m.(from := m.to, to := m.from, fromScheme := m.toScheme, toScheme := m.fromScheme)
  }

  /** The number of notes in a language map of lists: the sum of its values' lengths. */
  function NoteCount(lm: LangMap): nat {
    if lm == [] then 0 else NoteCount(lm[..|lm| - 1]) + Length(lm[|lm| - 1].1)
  }

  /** A language map counts no notes exactly when every one of its values is empty. */
  lemma {:induction false} NoteCountZero(lm: LangMap)
    ensures NoteCount(lm) == 0 <==> forall i :: 0 <= i < |lm| ==> Length(lm[i].1) == 0
  {
    if lm != [] {
      NoteCountZero(lm[..|lm| - 1]);
      assert forall i :: 0 <= i < |lm| - 1 ==> lm[..|lm| - 1][i] == lm[i];
    }
  }

  /** The `forOwn` loop of setNote: adds up the lengths of the note's values. */
  method CountNotes(lm: LangMap) returns (noteCount: nat)
    ensures noteCount == NoteCount(lm)
  {
    noteCount := 0;
    var i := 0;
    while i < |lm|
      invariant 0 <= i <= |lm|
      invariant noteCount == NoteCount(lm[..i])
    {
      assert lm[..i + 1][..i] == lm[..i];
      noteCount := noteCount + Length(lm[i].1);
      i := i + 1;
    }
    assert lm[..|lm|] == lm;
  }

  /**
   * What setNote keeps: nothing for a missing or empty note or for a language
   * map without any note, the note as given otherwise.
   */
  function KeptNote(note: Option<NoteValue>): (r: Option<NoteValue>)
    ensures r.None? <==> note.None? || note.value == NoteText("")
                         || (note.value.NoteMap? && forall i :: 0 <= i < |note.value.entries| ==>
                                                                 Length(note.value.entries[i].1) == 0)
    ensures r.Some? ==> r == note
  {
    match note
    case None => None
    case Some(NoteText(t)) => if t == "" then None else note
    case Some(NoteMap(lm)) =>
      NoteCountZero(lm);
      if NoteCount(lm) == 0 then None else note
  }

  // ------------------------------------------------------------ the store

  class MappingState {
    var mapping: Mapping
    var original: Option<Mapping>          // the snapshot of the loaded mapping, in its source form
    var mappingsNeedRefresh: bool
    var mappingsNeedRefreshRegistry: Option<string>
    var mappingRegistry: Option<Registry>

    ghost predicate Valid()
      reads this
    {
      HasMemberSets(mapping)
    }

    constructor ()
      ensures Valid()
      ensures mapping == EmptyMapping && original == None
      ensures !mappingsNeedRefresh && mappingsNeedRefreshRegistry == None && mappingRegistry == None
    {
      mapping := EmptyMapping;
      original := None;
      mappingsNeedRefresh := false;
      mappingsNeedRefreshRegistry := None;
      mappingRegistry := None;
    }

    method Add(concept: Item, scheme: Option<Item>, isLeft: bool)
      requires Valid()
      modifies this`mapping, this`original
      ensures Valid()
      ensures Draft(mapping, original) == AfterAdd(old(Draft(mapping, original)), concept, scheme, isLeft)
    {
      var resolved := scheme;
      if resolved.None? && concept.inScheme != [] {
        resolved := Some(concept.inScheme[0]);
      }
      if resolved.None? {
        return;
      }
      if Added(mapping, concept, isLeft) {
        return;
      }
      if (isLeft && |mapping.from.memberSet.value| != 0) || !CheckScheme(mapping, resolved.value, isLeft) {
        mapping := WithMembers(mapping, isLeft, [concept]);
        original := None;
      } else {
        mapping := WithMembers(mapping, isLeft, Members(mapping, isLeft) + [concept]);
      }
      mapping := WithScheme(mapping, isLeft, resolved);
    }

    method Remove(concept: Item, isLeft: bool)
      requires Valid()
      modifies this`mapping
      ensures Valid()
      ensures mapping == AfterRemove(old(mapping), concept, isLeft)
    {
      var members := Members(mapping, isLeft);
      var index := IndexOfUri(members, concept.uri);
      if index == -1 {
        return;
      }
      members := RemoveAt(members, index);
      mapping := WithMembers(mapping, isLeft, members);
      if |members| == 0 && isLeft {
        mapping := WithScheme(mapping, isLeft, None);
      }
    }

    method RemoveAll(isLeft: bool)
      requires Valid()
      modifies this`mapping
      ensures Valid()
      ensures mapping == AfterRemoveAll(old(mapping), isLeft)
    {
      mapping := WithMembers(mapping, isLeft, []);
      mapping := WithScheme(mapping, isLeft, None);
    }

    /** Loads a mapping and/or the snapshot of its original; with neither, forgets the original. */
    method Set(newMapping: Option<Mapping>, newOriginal: Option<Mapping>)
      requires Valid()
      requires newMapping.Some? ==> HasMemberSets(newMapping.value)
      modifies this`mapping, this`original
      ensures Valid()
      ensures mapping == if newMapping.Some? then newMapping.value else old(mapping)
      ensures original == if newOriginal.Some? then newOriginal
                          else if newMapping.Some? then old(original) else None
    {
      if newMapping.Some? {
        mapping := newMapping.value;
      }
      if newOriginal.Some? {
        original := newOriginal;
      } else if newMapping.None? {
        original := None;
      }
    }

    method Empty()
      modifies this`mapping, this`original
      ensures Valid()
      ensures mapping == EmptyMapping && original == None
    {
      mapping := EmptyMapping;
      original := None;
    }

    method SetType(uri: string)
      requires Valid()
      modifies this`mapping
      ensures Valid()
      ensures mapping == old(mapping).(mappingType := [uri])
    {
      mapping := mapping.(mappingType := [uri]);
    }

    method SetCreator(creator: Option<Creator>)
      requires Valid()
      modifies this`mapping
      ensures Valid()
      ensures mapping == old(mapping).(creator := creator)
    {
      mapping := mapping.(creator := creator);
    }

    method SetNote(note: Option<NoteValue>)
      requires Valid()
      modifies this`mapping
      ensures Valid()
      ensures mapping == old(mapping).(note := KeptNote(note))
    {
      var kept := note;
      if kept.Some? && kept.value.NoteMap? {
        var noteCount := CountNotes(kept.value.entries);
        if noteCount == 0 {
          kept := None;
        }
      }
      if kept.None? || kept == Some(NoteText("")) {
        mapping := mapping.(note := None);
      } else {
        mapping := mapping.(note := kept);
      }
    }

    method SetScheme(isLeft: bool, scheme: Option<Item>)
      requires Valid()
      modifies this`mapping
      ensures Valid()
      ensures mapping == AfterSetScheme(old(mapping), isLeft, scheme)
    {
      if |GetConcepts(mapping, isLeft)| == 0 {
        mapping := WithScheme(mapping, isLeft, scheme);
      }
    }

    method Switch()
      requires Valid()
      modifies this`mapping
      ensures Valid()
      ensures mapping == Switched(old(mapping))
    {
      mapping := mapping.(from := mapping.to, to := mapping.from,
                          fromScheme := mapping.toScheme, toScheme := mapping.fromScheme);
    }

    /**
     * Attaches the identifiers the domain library derives for the current
     * mapping (`ids`), but only once both schemes are set.
     */
    method SetIdentifier(ids: seq<string>)
      requires Valid()
      modifies this`mapping
      ensures Valid()
      ensures mapping == if old(mapping).fromScheme.Some? && old(mapping).toScheme.Some?
                         then old(mapping).(identifier := Some(ids)) else old(mapping)
    {
      if mapping.fromScheme.Some? && mapping.toScheme.Some? {
        mapping := mapping.(identifier := Some(ids));
      }
    }

    /**
     * Raises or lowers the refresh signal. Raising it records the URI of the
     * registry RefreshTarget picks, and keeps the previous hint when it picks none.
     */
    method SetRefresh(registries: seq<Registry>, refresh: bool, registry: string, onlyMain: bool)
      modifies this`mappingsNeedRefresh, this`mappingsNeedRefreshRegistry
      ensures mappingsNeedRefresh == refresh
      ensures !refresh ==> mappingsNeedRefreshRegistry.None?
      ensures refresh ==>
                var target := RefreshTarget(registries, mappingRegistry, registry, onlyMain);
                mappingsNeedRefreshRegistry == if target.Some? then Some(target.value.uri)
                                               else old(mappingsNeedRefreshRegistry)
    {
      if refresh {
        var target := RefreshTarget(registries, mappingRegistry, registry, onlyMain);
        if target.Some? {
          mappingsNeedRefreshRegistry := Some(target.value.uri);
        }
      } else {
        mappingsNeedRefreshRegistry := None;
      }
      mappingsNeedRefresh := refresh;
    }

    /**
     * The step removeMappings takes once the registry answered: when one of
     * the removed mappings equals the tracked original (`isEqual`, deep
     * equality), the original is forgotten through `set`.
     */
    method ForgetRemovedOriginal(removed: seq<Mapping>, isEqual: (Mapping, Mapping) -> bool)
      requires Valid()
      modifies this`mapping, this`original
      ensures Valid() && mapping == old(mapping)
      ensures original == if old(original).Some? && exists i :: 0 <= i < |removed| && isEqual(removed[i], old(original).value)
                          then None else old(original)
    {
      var i := 0;
      while i < |removed|
        invariant 0 <= i <= |removed|
        invariant Valid() && mapping == old(mapping)
        invariant original == if old(original).Some? && exists j :: 0 <= j < i && isEqual(removed[j], old(original).value)
                              then None else old(original)
      {
        if original.Some? && isEqual(removed[i], original.value) {
          Set(None, None);
        }
        i := i + 1;
      }
    }
  }

  // ------------------------------------------------------------ laws

  /** Switching twice gives back the mapping. */
  lemma SwitchInvolutive(m: Mapping)
    ensures Switched(Switched(m)) == m
  {
  }

  /** Adding to the "from" side never leaves it with more than one concept. */
  lemma AddKeepsFromSingle(d: Draft, concept: Item, scheme: Option<Item>, isLeft: bool)
    requires HasMemberSets(d.mapping) && |Members(d.mapping, true)| <= 1
    ensures |Members(AfterAdd(d, concept, scheme, isLeft).mapping, true)| <= 1
  {
  }

  /** switch, unlike add, can leave the "from" side with several concepts. */
  lemma SwitchMayCrowdFrom(a: Item, b: Item)
    requires a.uri != b.uri
    ensures var m := EmptyMapping.(to := Bundle(Some([a, b]), None, None));
            |Members(m, true)| == 0 && |Members(Switched(m), true)| == 2
  {
  }

  lemma {:induction false} IndexOfUriAppend(s: seq<Item>, c: Item)
    requires forall j :: 0 <= j < |s| ==> s[j].uri != c.uri
    ensures IndexOfUri(s + [c], c.uri) == |s|
  {
    var k := IndexOfUri(s + [c], c.uri);
    assert (s + [c])[|s|].uri == c.uri;
    assert k != -1;
  }

  /**
   * Removing a concept just added to the "to" side of a matching scheme gives
   * back that side's concepts; the side keeps the scheme the add gave it.
   */
  lemma {:induction false} AddThenRemoveTo(d: Draft, concept: Item, scheme: Option<Item>)
    requires HasMemberSets(d.mapping)
    requires ResolveScheme(concept, scheme).Some? && !Added(d.mapping, concept, false)
    requires CheckScheme(d.mapping, ResolveScheme(concept, scheme).value, false)
    ensures var m := AfterRemove(AfterAdd(d, concept, scheme, false).mapping, concept, false);
            Members(m, false) == Members(d.mapping, false)
            && GetScheme(m, false) == ResolveScheme(concept, scheme)
            && m.from == d.mapping.from && m.fromScheme == d.mapping.fromScheme
  {
    var s := Members(d.mapping, false);
    var added := AfterAdd(d, concept, scheme, false).mapping;
    assert Members(added, false) == s + [concept];
    IndexOfUriAppend(s, concept);
    assert (s + [concept])[..|s|] == s;
  }

  /**
   * Removing the concept just put on an empty, schemeless "from" side gives
   * back the whole mapping.
   */
  lemma {:induction false} AddThenRemoveFrom(d: Draft, concept: Item, scheme: Option<Item>)
    requires HasMemberSets(d.mapping) && Members(d.mapping, true) == [] && d.mapping.fromScheme.None?
    requires ResolveScheme(concept, scheme).Some?
    ensures AfterRemove(AfterAdd(d, concept, scheme, true).mapping, concept, true) == d.mapping
  {
    var added := AfterAdd(d, concept, scheme, true).mapping;
    assert Members(added, true) == [concept];
    assert IndexOfUri([concept], concept.uri) == 0;
  }
}
