/**
 * The JSKOS records the mapping editor works on: concepts and schemes
 * (both "items"), language maps, concept bundles and mappings.
 *
 * Items are identified by URI; the domain library's `compare` is taken to be
 * URI equality. A field that JSKOS leaves out is modelled by its empty value
 * ("" for a URI or a provider endpoint, [] for a list).
 */
module Jskos {

  datatype Option<T> = None | Some(value: T)

  /** A value of a language map: a single string (a label) or a list of strings (definitions, notes). */
  datatype LmValue = Text(text: string) | Texts(texts: seq<string>)

  /** JavaScript truthiness of a language-map value: "" is falsy, every array is truthy. */
  predicate Truthy(v: LmValue) {
    v.Texts? || v.text != ""
  }

  /** The JavaScript `length` of a language-map value. */
  function Length(v: LmValue): nat {
    match v
    case Text(s) => |s|
    case Texts(l) => |l|
  }

  /** A language map: its own keys, in the order Object.keys lists them, each with its value. */
  type LangMap = seq<(string, LmValue)>

  /** `object[key]`: the value stored under `key`, if any. */
  function Lookup(lm: LangMap, key: string): (r: Option<LmValue>)
    ensures r.None? <==> forall i :: 0 <= i < |lm| ==> lm[i].0 != key
    ensures r.Some? ==> exists i :: 0 <= i < |lm| && lm[i] == (key, r.value)
  {
    if lm == [] then None
    else if lm[0].0 == key then Some(lm[0].1)
    else Lookup(lm[1..], key)
  }

  /** A concept or a concept scheme. */
  datatype Item = Item(
    uri: string,                  // "" when the item has no URI
    notation: seq<string>,
    isScheme: bool,               // what the domain library's isScheme decides for this item
    prefLabel: Option<LangMap>,
    definition: Option<LangMap>,
    inScheme: seq<Item>,          // the schemes of a concept, the first one primary
    providerData: string)         // PROVIDER.data of a scheme, "" when absent

  /** jskos.compare on items. */
  predicate SameUri(a: Item, b: Item) {
    a.uri == b.uri
  }

  /** A concept bundle; the mapping editor only ever writes `memberSet`. */
  datatype Bundle = Bundle(
    memberSet: Option<seq<Item>>,
    memberList: Option<seq<Item>>,
    memberChoice: Option<seq<Item>>)

  /** The creator record of a mapping. */
  datatype Creator = Creator(prefLabel: LangMap, url: Option<string>)

  /** A mapping note: normally a language map of lists, but any value is stored as given. */
  datatype NoteValue = NoteMap(entries: LangMap) | NoteText(text: string)

  /** A JSKOS concept mapping. */
  datatype Mapping = Mapping(
    from: Bundle,
    to: Bundle,
    fromScheme: Option<Item>,
    toScheme: Option<Item>,
    mappingType: seq<string>,
    creator: Option<Creator>,
    note: Option<NoteValue>,
    identifier: Option<seq<string>>)

  /** URI of the domain library's default mapping type. */
  const DefaultMappingType: string := "http://www.w3.org/2004/02/skos/core#mappingRelation"

  /**
   * lodash `findIndex` with a URI test: the index of the first item whose URI
   * is `uri`, or -1 when there is none.
   */
  function IndexOfUri(s: seq<Item>, uri: string): (r: int)
    ensures -1 <= r < |s|
    ensures r == -1 <==> forall j :: 0 <= j < |s| ==> s[j].uri != uri
    ensures r != -1 ==> s[r].uri == uri && forall j :: 0 <= j < r ==> s[j].uri != uri
  {
    if s == [] then -1
    else if s[0].uri == uri then 0
    else
      var k := IndexOfUri(s[1..], uri);
      if k == -1 then -1 else k + 1
  }

  /** Array `splice(i, 1)`: the sequence without its element at `i`. */
  function RemoveAt<T>(s: seq<T>, i: nat): (r: seq<T>)
    requires i < |s|
    ensures |r| == |s| - 1
    ensures forall j :: 0 <= j < i ==> r[j] == s[j]
    ensures forall j :: i <= j < |r| ==> r[j] == s[j + 1]
  {
    s[..i] + s[i + 1..]
  }
}
