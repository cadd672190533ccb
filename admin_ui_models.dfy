/**
 * The view model the admin UI serialises for its resource list: one list item
 * per resource (key, a display key cut to 80 characters, one item per
 * translation, the from-code flag) and the available languages.
 *
 * Lengths and prefixes are counted in Dafny characters (Unicode scalar
 * values), where the C# code counts UTF-16 code units.
 */
module AdminUIModels {
  import opened Entities
  import ResourceRepository

  /** A culture, reduced to the two properties the view model reads. */
  datatype CultureInfo = CultureInfo(name: string, englishName: string)

  /** A language as shown in the UI. */
  datatype CultureApiModel = CultureApiModel(name: string, englishName: string)

  /** One translation of a resource as shown in the UI. */
  datatype ResourceItemApiModel = ResourceItemApiModel(key: string, value: Option<string>, language: string)

  /** The number of key characters the list shows before the ellipsis. */
  const MaxDisplayKeyLength: nat := 80

  /** What is appended to a key that was cut. */
  const Ellipsis: string := "..."

  // ---------------------------------------------------------------------
  // Display key
  // ---------------------------------------------------------------------

  /** The first `n` characters of `s`, or all of `s` when it is shorter (LINQ Take). */
  function Take(s: string, n: nat): (prefix: string)
    ensures |prefix| == if |s| <= n then |s| else n
    ensures prefix == s[..|prefix|]
  {
    if |s| <= n then s else s[..n]
  }

  /**
   * The key as the list shows it: unchanged when it has at most 80
   * characters, otherwise its first 80 characters followed by "...".
   */
  function DisplayKey(key: string): (display: string)
    ensures |key| <= MaxDisplayKeyLength ==> display == key
    ensures |key| > MaxDisplayKeyLength ==> display == key[..MaxDisplayKeyLength] + Ellipsis
    ensures |display| <= MaxDisplayKeyLength + |Ellipsis|
    ensures |display| == MaxDisplayKeyLength + |Ellipsis| <==> |key| > MaxDisplayKeyLength
    ensures var shown := if |key| <= MaxDisplayKeyLength then |key| else MaxDisplayKeyLength;
            display[..shown] == key[..shown]
  {
    var trimmed := Take(key, MaxDisplayKeyLength);
    if |key| <= MaxDisplayKeyLength then trimmed else trimmed + Ellipsis
  }

  /** Showing a display key again changes nothing. */
  lemma DisplayKeyIdempotent(key: string)
    ensures DisplayKey(DisplayKey(key)) == DisplayKey(key)
  {
  }

  /**
   * Two keys share a display key exactly when they are equal or both are
   * longer than 80 characters and agree on their first 80.
   */
  lemma DisplayKeyCollision(a: string, b: string)
    ensures DisplayKey(a) == DisplayKey(b) <==>
              a == b || (|a| > MaxDisplayKeyLength && |b| > MaxDisplayKeyLength
                         && a[..MaxDisplayKeyLength] == b[..MaxDisplayKeyLength])
  {
  }

  // ---------------------------------------------------------------------
  // Projections
  // ---------------------------------------------------------------------

  /** One item per translation, in order, each carrying the resource key. */
  function TranslationItems(key: string, translations: seq<LocalizationResourceTranslation>)
    : (items: seq<ResourceItemApiModel>)
    ensures |items| == |translations|
    ensures forall i :: 0 <= i < |items| ==>
              items[i] == ResourceItemApiModel(key, translations[i].value, translations[i].language)
  {
    if translations == [] then []
    else [ResourceItemApiModel(key, translations[0].value, translations[0].language)]
         + TranslationItems(key, translations[1..])
  }

  /** One language item per culture, in order: its name and English name. */
  function ProjectLanguages(languages: seq<CultureInfo>): (cultures: seq<CultureApiModel>)
    ensures |cultures| == |languages|
    ensures forall i :: 0 <= i < |cultures| ==>
              cultures[i].name == languages[i].name && cultures[i].englishName == languages[i].englishName
  {
    if languages == [] then []
    else [CultureApiModel(languages[0].name, languages[0].englishName)] + ProjectLanguages(languages[1..])
  }

  /**
   * The translation items of a resource read from the joined rows follow the
   * rows of its key one to one, in row order.
   */
  lemma ItemsFollowRows(rows: seq<ResourceRepository.Row>, key: string)
    requires key in ResourceRepository.KeysOf(rows)
    ensures key in ResourceRepository.Grouped(rows)
    ensures var group := ResourceRepository.RowsWithKey(rows, key);
            var items := TranslationItems(key, ResourceRepository.Grouped(rows)[key].translations);
            && |items| == |group|
            && forall i :: 0 <= i < |items| ==>
                 items[i] == ResourceItemApiModel(key, group[i].translation, group[i].language)
  {
  }

  // ---------------------------------------------------------------------
  // List items and the view model
  // ---------------------------------------------------------------------

  /** A resource in the list; its display key is assigned after construction. */
  class ResourceListItemApiModel {
    const key: string
    const translations: seq<ResourceItemApiModel>
    const fromCode: bool
    var displayKey: Option<string>

    constructor(key: string, translations: seq<ResourceItemApiModel>, fromCode: bool)
      ensures this.key == key && this.translations == translations && this.fromCode == fromCode
      ensures displayKey == None
    {
      this.key := key;
      this.translations := translations;
      this.fromCode := fromCode;
      displayKey := None;
    }
  }

  /** `item` is the list item built from resource `r`. */
  predicate Projects(item: ResourceListItemApiModel, r: LocalizationResource)
  {
    && item.key == r.resourceKey
    && item.translations == TranslationItems(r.resourceKey, r.translations)
    && item.fromCode == r.fromCode
  }

  /** The Select(...).ToList() over the resources: one new list item per resource, in order. */
  method ProjectResources(resources: seq<LocalizationResource>) returns (items: seq<ResourceListItemApiModel>)
    ensures |items| == |resources|
    ensures forall i :: 0 <= i < |items| ==>
              fresh(items[i]) && Projects(items[i], resources[i]) && items[i].displayKey == None
  {
    items := [];
    var i := 0;
    while i < |resources|
      invariant 0 <= i <= |resources|
      invariant |items| == i
      invariant forall j :: 0 <= j < i ==>
                  fresh(items[j]) && Projects(items[j], resources[j]) && items[j].displayKey == None
    {
      var r := resources[i];
      var item := new ResourceListItemApiModel(r.resourceKey, TranslationItems(r.resourceKey, r.translations), r.fromCode);
      items := items + [item];
      i := i + 1;
    }
  }

  /** The ForEach over the list: sets every item's display key from its key, in place. */
  method AssignDisplayKeys(items: seq<ResourceListItemApiModel>)
    modifies items
    ensures forall i :: 0 <= i < |items| ==> items[i].displayKey == Some(DisplayKey(items[i].key))
  {
    for i := 0 to |items|
      invariant forall j :: 0 <= j < i ==> items[j].displayKey == Some(DisplayKey(items[j].key))
    {
      var trimmed := Take(items[i].key, MaxDisplayKeyLength);
      items[i].displayKey := Some(if |items[i].key| <= MaxDisplayKeyLength then trimmed else trimmed + Ellipsis);
    }
  }

  /** The whole view model, as built from `resources` and `languages`. */
  ghost predicate Presents(m: LocalizationResourceApiModel, resources: seq<LocalizationResource>,
                           languages: seq<CultureInfo>)
    reads m, m.resources
  {
    && |m.resources| == |resources|
    && (forall i :: 0 <= i < |resources| ==>
          Projects(m.resources[i], resources[i])
          && m.resources[i].displayKey == Some(DisplayKey(resources[i].resourceKey)))
    && m.languages == ProjectLanguages(languages)
    && !m.adminMode
  }

  class LocalizationResourceApiModel {
    const resources: seq<ResourceListItemApiModel>
    const languages: seq<CultureApiModel>
    var adminMode: bool

    /** The constructor once its arguments are known not to be null. */
    constructor(resources: seq<LocalizationResource>, languages: seq<CultureInfo>)
      ensures Presents(this, resources, languages)
      ensures forall i :: 0 <= i < |this.resources| ==> fresh(this.resources[i])
    {
      var items := ProjectResources(resources);
      this.resources := items;
      this.languages := ProjectLanguages(languages);
      adminMode := false;
      new;
      AssignDisplayKeys(items);
    }
  }

  /**
   * Building the view model: a null resource list, then a null language list,
   * throws before anything is built.
   */
  method Create(resources: Option<seq<LocalizationResource>>, languages: Option<seq<CultureInfo>>)
    returns (result: Outcome<LocalizationResourceApiModel>)
    ensures resources == None ==> result == ArgumentNullException("resources")
    ensures resources != None && languages == None ==> result == ArgumentNullException("languages")
    ensures resources != None && languages != None ==>
              result.Ok? && fresh(result.value) && Presents(result.value, resources.value, languages.value)
  {
    if resources == None {
      return ArgumentNullException("resources");
    }
    if languages == None {
      return ArgumentNullException("languages");
    }
    var model := new LocalizationResourceApiModel(resources.value, languages.value);
    return Ok(model);
  }
}
