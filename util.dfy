/**
 * Display helpers over JSKOS items and mappings: whether a concept fits a
 * scheme, notations and the order of mappings by them, language-map lookup,
 * labels, definitions and API links.
 *
 * The interface language the source falls back to (from the i18n setup or the
 * configuration) is passed in as `defaultLanguage`.
 */
module Util {
  import opened Jskos
  import opened UriEncoding

  /** Whether a concept may be picked while `scheme` is selected: it must name a scheme, and its first must match. */
  function CanConceptBeSelected(concept: Item, scheme: Option<Item>): (r: bool)
    ensures concept.inScheme == [] ==> !r
    ensures concept.inScheme != [] ==> (r <==> scheme.None? || SameUri(concept.inScheme[0], scheme.value))
  {
    if concept.inScheme == [] then false
    else
      var conceptScheme := concept.inScheme[0];
      scheme.None? || SameUri(conceptScheme, scheme.value)
  }

  // ---------------------------------------------------------------- notation

  function UpperChar(c: char): (r: char)
    ensures 'a' <= c <= 'z' ==> r as int == c as int - 32
    ensures !('a' <= c <= 'z') ==> r == c
  {
    if 'a' <= c <= 'z' then (c as int - 32) as char else c
  }

  /** toUpperCase, on the ASCII letters. */
  function ToUpper(s: string): (r: string)
    ensures |r| == |s|
    ensures forall i :: 0 <= i < |s| ==> r[i] == UpperChar(s[i])
  {
    if s == [] then [] else [UpperChar(s[0])] + ToUpper(s[1..])
  }

  /** Upper-casing twice is upper-casing once. */
  lemma {:induction false} ToUpperIdempotent(s: string)
    ensures ToUpper(ToUpper(s)) == ToUpper(s)
  {
    if s != [] {
      ToUpperIdempotent(s[1..]);
      assert ToUpper(s)[1..] == ToUpper(s[1..]);
    }
  }

  /**
   * The primary notation of an item: "" when it has none, else its first
   * notation, upper-cased for a scheme or when `kind` is "scheme".
   */
  function Notation(item: Option<Item>, kind: string): (r: string)
    ensures item.None? || item.value.notation == [] ==> r == ""
    ensures item.Some? && item.value.notation != [] ==> |r| == |item.value.notation[0]|
    ensures item.Some? && item.value.notation != [] ==>
              r == if item.value.isScheme || kind == "scheme" then ToUpper(item.value.notation[0])
                   else item.value.notation[0]
  {
    if item.Some? && item.value.notation != [] then
      var notation := item.value.notation[0];
      if item.value.isScheme || kind == "scheme" then ToUpper(notation) else notation
    else ""
  }

  // ---------------------------------------------------- ordering of mappings

  datatype BundleField = MemberSet | MemberList | MemberChoice

  /** The fields compareMappingsByConcepts looks at, in order. */
  const BundleFields: seq<BundleField> := [MemberSet, MemberList, MemberChoice]

  /** `_.get(mapping, side + "." + field + "[0]")` */
  function FirstMember(m: Mapping, isFrom: bool, field: BundleField): Option<Item> {
    var b := if isFrom then m.from else m.to;
    var members := match field
      case MemberSet => b.memberSet
      case MemberList => b.memberList
      case MemberChoice => b.memberChoice;
    if members.Some? && members.value != [] then Some(members.value[0]) else None
  }

  /** The notations of the first members of the three bundle fields. */
  function FieldNotations(m: Mapping, isFrom: bool): (r: seq<string>)
    ensures |r| == |BundleFields|
    ensures forall i :: 0 <= i < |r| ==> r[i] == Notation(FirstMember(m, isFrom, BundleFields[i]), "")
  {
    seq(|BundleFields|, i requires 0 <= i < |BundleFields| => Notation(FirstMember(m, isFrom, BundleFields[i]), ""))
  }

  /** The first non-empty string of a list, "" when there is none. */
  function FirstNonEmpty(ns: seq<string>): (r: string)
    ensures r == "" <==> forall i :: 0 <= i < |ns| ==> ns[i] == ""
    ensures r != "" ==> exists k :: 0 <= k < |ns| && ns[k] == r && forall j :: 0 <= j < k ==> ns[j] == ""
  {
    if ns == [] then ""
    else if ns[0] != "" then ns[0]
    else FirstNonEmpty(ns[1..])
  }

  /** Looking at one more string: the first non-empty one so far, else the new string. */
  lemma {:induction false} FirstNonEmptyStep(ns: seq<string>, i: nat)
    requires i < |ns|
    ensures FirstNonEmpty(ns[..i + 1]) == if FirstNonEmpty(ns[..i]) != "" then FirstNonEmpty(ns[..i]) else ns[i]
  {
    if i == 0 {
      assert ns[..1] == [ns[0]] && ns[..1][1..] == [];
    } else if ns[0] != "" {
      assert ns[..i + 1][0] == ns[0] && ns[..i][0] == ns[0];
    } else {
      FirstNonEmptyStep(ns[1..], i - 1);
      assert ns[..i + 1][1..] == ns[1..][..i];
      assert ns[..i][1..] == ns[1..][..i - 1];
    }
  }

  /** The notation a mapping is sorted by on one side. */
  function SortNotation(m: Mapping, isFrom: bool): string {
    FirstNonEmpty(FieldNotations(m, isFrom))
  }

  /** The `<` of JavaScript strings: lexicographic by character. */
  predicate Less(a: string, b: string) {
    if a == [] then b != []
    else if b == [] then false
    else if a[0] != b[0] then a[0] < b[0]
    else Less(a[1..], b[1..])
  }

  lemma {:induction false} LessAsymmetric(a: string, b: string)
    ensures Less(a, b) ==> !Less(b, a)
  {
    if a != [] && b != [] && a[0] == b[0] {
      LessAsymmetric(a[1..], b[1..]);
    }
  }

  lemma {:induction false} LessTotal(a: string, b: string)
    ensures a != b ==> Less(a, b) || Less(b, a)
  {
    if a != [] && b != [] && a[0] == b[0] {
      LessTotal(a[1..], b[1..]);
      assert a == [a[0]] + a[1..] && b == [b[0]] + b[1..];
    }
  }

  /**
   * The three-way comparison of two notations: -1 when the first sorts
   * before, 1 when after, 0 when they are equal.
   */
  function CompareNotations(n1: string, n2: string): (r: int)
    ensures r == -1 <==> Less(n1, n2)
    ensures r == 1 <==> Less(n2, n1)
    ensures r == 0 <==> n1 == n2
  {
    LessAsymmetric(n1, n2);
    LessTotal(n1, n2);
    if Less(n1, n2) then -1
    else if Less(n2, n1) then 1
    else 0
  }

  /** Comparing the other way round negates the result. */
  lemma CompareNotationsAntisymmetric(n1: string, n2: string)
    ensures CompareNotations(n2, n1) == -CompareNotations(n1, n2)
  {
    LessAsymmetric(n1, n2);
    LessAsymmetric(n2, n1);
  }

  /**
   * Orders two mappings by the notation of the first concept on one side,
   * taking for each mapping the first non-empty notation over memberSet,
   * memberList and memberChoice. (The source's tests for a null notation can
   * never hold: the loop always leaves a string.)
   */
  method CompareMappingsByConcepts(mapping1: Mapping, mapping2: Mapping, isFrom: bool) returns (r: int)
    ensures r == CompareNotations(SortNotation(mapping1, isFrom), SortNotation(mapping2, isFrom))
    ensures r in {-1, 0, 1}
  {
    ghost var ns1, ns2 := FieldNotations(mapping1, isFrom), FieldNotations(mapping2, isFrom);
    var notation1, notation2 := "", "";
    var i := 0;
    while i < |BundleFields|
      invariant 0 <= i <= |BundleFields|
      invariant notation1 == FirstNonEmpty(ns1[..i])
      invariant notation2 == FirstNonEmpty(ns2[..i])
    {
      FirstNonEmptyStep(ns1, i);
      FirstNonEmptyStep(ns2, i);
      var field := BundleFields[i];
      if notation1 == "" {
        notation1 := Notation(FirstMember(mapping1, isFrom, field), "");
      }
      if notation2 == "" {
        notation2 := Notation(FirstMember(mapping2, isFrom, field), "");
      }
      i := i + 1;
    }
    assert ns1[..i] == ns1 && ns2[..i] == ns2;
    if Less(notation1, notation2) {
      r := -1;
    } else if Less(notation2, notation1) {
      r := 1;
    } else {
      r := 0;
    }
  }

  /** Swapping the mappings negates the comparison. */
  lemma CompareMappingsAntisymmetric(mapping1: Mapping, mapping2: Mapping, isFrom: bool)
    ensures CompareNotations(SortNotation(mapping2, isFrom), SortNotation(mapping1, isFrom))
            == -CompareNotations(SortNotation(mapping1, isFrom), SortNotation(mapping2, isFrom))
  {
    CompareNotationsAntisymmetric(SortNotation(mapping1, isFrom), SortNotation(mapping2, isFrom));
  }

  // ------------------------------------------------------------ language maps

  /** The language asked for: the given one, else the interface default, else English. */
  function Language(language: string, defaultLanguage: string): (r: string)
    ensures r != ""
    ensures language != "" ==> r == language
    ensures language == "" && defaultLanguage != "" ==> r == defaultLanguage
    ensures language == "" && defaultLanguage == "" ==> r == "en"
  {
    if language != "" then language
    else if defaultLanguage != "" then defaultLanguage
    else "en"
  }

  /** The value of the first key other than "-", truthy or not. */
  function FirstOtherLanguage(lm: LangMap): (r: Option<LmValue>)
    ensures r.None? <==> forall i :: 0 <= i < |lm| ==> lm[i].0 == "-"
    ensures r.Some? ==> exists k :: 0 <= k < |lm| && lm[k].0 != "-" && lm[k].1 == r.value
                                    && forall j :: 0 <= j < k ==> lm[j].0 == "-"
  {
    if lm == [] then None
    else if lm[0].0 != "-" then Some(lm[0].1)
    else FirstOtherLanguage(lm[1..])
  }

  /**
   * The content of a language map: the truthy value in `language`, else the
   * truthy English one, else the value of the first key other than "-".
   */
  function LmLookup(lm: Option<LangMap>, language: string): (r: Option<LmValue>)
    ensures lm.None? ==> r.None?
    ensures lm.Some? ==>
              var inLanguage := Lookup(lm.value, language);
              var inEnglish := Lookup(lm.value, "en");
              if inLanguage.Some? && Truthy(inLanguage.value) then r == inLanguage
              else if inEnglish.Some? && Truthy(inEnglish.value) then r == inEnglish
              else r == FirstOtherLanguage(lm.value)
    ensures r.Some? ==> exists i :: 0 <= i < |lm.value| && lm.value[i].1 == r.value
    ensures lm.Some? && language != "-" ==>
              (r.None? <==> forall i :: 0 <= i < |lm.value| ==> lm.value[i].0 == "-")
  {
    if lm.None? then None
    else
      var inLanguage := Lookup(lm.value, language);
      var inEnglish := Lookup(lm.value, "en");
      if inLanguage.Some? && Truthy(inLanguage.value) then inLanguage
      else if inEnglish.Some? && Truthy(inEnglish.value) then inEnglish
      else FirstOtherLanguage(lm.value)
  }

  /** The language-map properties of an item the helpers read. */
  datatype LmProp = PrefLabel | Definition

  function PropOf(item: Item, prop: LmProp): Option<LangMap> {
    match prop
    case PrefLabel => item.prefLabel
    case Definition => item.definition
  }

  /** lmContent: null for no item, else the content of the item's property. */
  function LmContent(item: Option<Item>, prop: LmProp, language: string, defaultLanguage: string): (r: Option<LmValue>)
    ensures item.None? ==> r.None?
    ensures item.Some? ==> r == LmLookup(PropOf(item.value, prop), Language(language, defaultLanguage))
  {
    if item.None? then None
    else LmLookup(PropOf(item.value, prop), Language(language, defaultLanguage))
  }

  /** prefLabel: the label content if truthy, else the URI when allowed and present, else "". */
  function PrefLabelOf(item: Option<Item>, language: string, defaultLanguage: string, fallbackToUri: bool)
    : (r: LmValue)
    ensures var content := LmContent(item, PrefLabel, language, defaultLanguage);
            if content.Some? && Truthy(content.value) then r == content.value
            else if fallbackToUri && item.Some? && item.value.uri != "" then r == Text(item.value.uri)
            else r == Text("")
  {
    var content := LmContent(item, PrefLabel, language, defaultLanguage);
    if content.Some? && Truthy(content.value) then content.value
    else if fallbackToUri && item.Some? && item.value.uri != "" then Text(item.value.uri)
    else Text("")
  }

  /** With URI fallback, an item that has a URI always gets a non-empty label. */
  lemma PrefLabelNonEmpty(item: Item, language: string, defaultLanguage: string)
    requires item.uri != ""
    ensures Truthy(PrefLabelOf(Some(item), language, defaultLanguage, true))
  {
  }

  /** An item labelled in the requested language shows that label. */
  lemma PrefLabelInLanguage(item: Item, language: string, defaultLanguage: string, text: string)
    requires language != "" && text != ""
    requires item.prefLabel.Some? && Lookup(item.prefLabel.value, language) == Some(Text(text))
    ensures PrefLabelOf(Some(item), language, defaultLanguage, false) == Text(text)
  {
  }

  /** definition: no content gives [], a string is wrapped in a list, a list is returned as is. */
  function DefinitionOf(item: Option<Item>, language: string, defaultLanguage: string): (r: seq<string>)
    ensures var content := LmContent(item, Definition, language, defaultLanguage);
            if content.None? || !Truthy(content.value) then r == []
            else if content.value.Text? then r == [content.value.text]
            else r == content.value.texts
  {
    var content := LmContent(item, Definition, language, defaultLanguage);
    if content.None? || !Truthy(content.value) then []
    else match content.value
      case Text(s) => [s]
      case Texts(l) => l
  }

  // ---------------------------------------------------------------- API links

  /**
   * The API link of a concept: the data endpoint of its first scheme's
   * provider, queried with the encoded concept URI; none without a concept,
   * a URI or an endpoint.
   */
  function ApiUrl(concept: Option<Item>): (r: Option<string>)
    ensures r.None? <==> concept.None? || concept.value.uri == "" || concept.value.inScheme == []
                         || concept.value.inScheme[0].providerData == ""
    ensures r.Some? ==> var data := concept.value.inScheme[0].providerData;
                        r.value == data + "?uri=" + EncodeUriComponent(concept.value.uri)
  {
    if concept.None? || concept.value.uri == "" then None
    else if concept.value.inScheme == [] || concept.value.inScheme[0].providerData == "" then None
    else Some(concept.value.inScheme[0].providerData + "?uri=" + EncodeUriComponent(concept.value.uri))
  }

  /**
   * An API link is the endpoint followed by one query parameter whose value
   * cannot end the parameter early: after "?uri=" come only unreserved
   * characters and percent escapes.
   */
  lemma ApiUrlQuery(concept: Item)
    requires ApiUrl(Some(concept)).Some?
    ensures var url := ApiUrl(Some(concept)).value;
            var data := concept.inScheme[0].providerData;
            |url| > |data| + 5 && url[..|data|] == data && url[|data|..|data| + 5] == "?uri="
            && forall i :: |data| + 5 <= i < |url| ==> Encoded(url[i])
  {
    var url := ApiUrl(Some(concept)).value;
    var data := concept.inScheme[0].providerData;
    var enc := EncodeUriComponent(concept.uri);
    assert url == data + "?uri=" + enc;
    assert forall i :: |data| + 5 <= i < |url| ==> url[i] == enc[i - |data| - 5];
  }
}
