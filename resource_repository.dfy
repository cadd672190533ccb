/**
 * The SQL Server storage of localization resources: the mapper that turns the
 * rows of the joined resource/translation query into resources (GetAll,
 * GetByKey), and the three single-row writes against the two tables.
 *
 * The data reader is a sequence of rows; the tables are two maps keyed by Id.
 */
module ResourceRepository {
  import opened Entities

  /**
   * One row of the joined result set: the resource columns, then the columns
   * of one translation of that resource (TranslationId, Translation, Language).
   */
  datatype Row = Row(
    id: Id,
    resourceKey: string,
    author: string,
    fromCode: bool,
    isHidden: bool,
    isModified: bool,
    modificationDate: DateTime,
    notes: Option<string>,
    translationId: Id,
    translation: Option<string>,
    language: string)

  // ---------------------------------------------------------------------
  // Specification of the aggregation
  // ---------------------------------------------------------------------

  /** The distinct resource keys that occur in the rows. */
  function KeysOf(rows: seq<Row>): set<string>
  {
    set r | r in rows :: r.resourceKey
  }

  /** The rows that carry `key`, in row order. */
  function RowsWithKey(rows: seq<Row>, key: string): (group: seq<Row>)
    ensures forall r :: r in group <==> r in rows && r.resourceKey == key
    ensures group != [] <==> key in KeysOf(rows)
    ensures |group| <= |rows|
  {
    if rows == [] then []
    else
      var last := rows[|rows| - 1];
      assert rows == rows[..|rows| - 1] + [last];
      RowsWithKey(rows[..|rows| - 1], key) + (if last.resourceKey == key then [last] else [])
  }

  /** The translation that a row contributes to the resource whose Id is `ownerId`. */
  function TranslationOf(row: Row, ownerId: Id): LocalizationResourceTranslation
  {
    LocalizationResourceTranslation(row.translationId, ownerId, row.translation, row.language)
  }

  /** The translations that the rows of one group contribute, in row order. */
  function TranslationsOf(group: seq<Row>, ownerId: Id): (ts: seq<LocalizationResourceTranslation>)
    ensures |ts| == |group|
    ensures forall i :: 0 <= i < |group| ==> ts[i] == TranslationOf(group[i], ownerId)
  {
    if group == [] then []
    else TranslationsOf(group[..|group| - 1], ownerId) + [TranslationOf(group[|group| - 1], ownerId)]
  }

  /**
   * The resource built from the rows of one key: metadata from the first row,
   * one translation per row, all owned by the first row's Id.
   */
  function Assemble(key: string, group: seq<Row>): LocalizationResource
    requires group != []
  {
    var first := group[0];
    LocalizationResource(first.id, key, first.author, first.fromCode, first.isHidden,
                         first.isModified, first.modificationDate, first.notes,
                         TranslationsOf(group, first.id))
  }

  /** The lookup that reading all the rows should produce: one resource per distinct key. */
  function Grouped(rows: seq<Row>): (lookup: map<string, LocalizationResource>)
    ensures lookup.Keys == KeysOf(rows)
  {
    map k | k in KeysOf(rows) :: Assemble(k, RowsWithKey(rows, k))
  }

  // ---------------------------------------------------------------------
  // How the lookup grows by one row
  // ---------------------------------------------------------------------

  lemma RowsWithKeyAppend(rows: seq<Row>, row: Row, key: string)
    ensures RowsWithKey(rows + [row], key) == RowsWithKey(rows, key) + (if row.resourceKey == key then [row] else [])
  {
  }

  lemma TranslationsOfAppend(group: seq<Row>, row: Row, ownerId: Id)
    ensures TranslationsOf(group + [row], ownerId) == TranslationsOf(group, ownerId) + [TranslationOf(row, ownerId)]
  {
  }

  lemma KeysOfAppend(rows: seq<Row>, row: Row)
    ensures KeysOf(rows + [row]) == KeysOf(rows) + {row.resourceKey}
  {
  }

  lemma GroupedAt(rows: seq<Row>, key: string)
    requires key in KeysOf(rows)
    ensures RowsWithKey(rows, key) != []
    ensures Grouped(rows)[key] == Assemble(key, RowsWithKey(rows, key))
  {
  }

  /** The resource for `key` after one more row: unchanged, extended or created. */
  lemma GroupedAppendAt(rows: seq<Row>, row: Row, k: string)
    requires k in KeysOf(rows + [row])
    ensures k != row.resourceKey ==> k in KeysOf(rows) && Grouped(rows + [row])[k] == Grouped(rows)[k]
    ensures k == row.resourceKey && k in KeysOf(rows) ==>
              var r := Grouped(rows)[k];
              Grouped(rows + [row])[k] == r.(translations := r.translations + [TranslationOf(row, r.id)])
    ensures k == row.resourceKey && k !in KeysOf(rows) ==>
              Grouped(rows + [row])[k] == Assemble(k, [row])
  {
    KeysOfAppend(rows, row);
    RowsWithKeyAppend(rows, row, k);
    GroupedAt(rows + [row], k);
    var group := RowsWithKey(rows, k);
    if k != row.resourceKey {
      GroupedAt(rows, k);
      assert RowsWithKey(rows + [row], k) == group;
    } else if k in KeysOf(rows) {
      GroupedAt(rows, k);
      assert (group + [row])[0] == group[0];
      TranslationsOfAppend(group, row, group[0].id);
    } else {
      assert RowsWithKey(rows + [row], k) == [row];
    }
  }

  /** A row whose key is already in the lookup only appends its translation to that resource. */
  lemma GroupedAppendKnown(rows: seq<Row>, row: Row)
    requires row.resourceKey in KeysOf(rows)
    ensures var before, key := Grouped(rows), row.resourceKey;
            Grouped(rows + [row]) ==
              before[key := before[key].(translations := before[key].translations + [TranslationOf(row, before[key].id)])]
  {
    KeysOfAppend(rows, row);
    GroupedAppendKnownAt(rows, row);
  }

  lemma GroupedAppendKnownAt(rows: seq<Row>, row: Row)
    requires row.resourceKey in KeysOf(rows)
    ensures var before, key := Grouped(rows), row.resourceKey;
            forall k :: k in Grouped(rows + [row]) ==>
              Grouped(rows + [row])[k] ==
                before[key := before[key].(translations := before[key].translations + [TranslationOf(row, before[key].id)])][k]
  {
    forall k | k in Grouped(rows + [row]) {
      GroupedAppendAt(rows, row, k);
    }
  }

  /** A row whose key is not yet in the lookup creates a resource from that row alone. */
  lemma GroupedAppendNew(rows: seq<Row>, row: Row)
    requires row.resourceKey !in KeysOf(rows)
    ensures Grouped(rows + [row]) == Grouped(rows)[row.resourceKey := Assemble(row.resourceKey, [row])]
  {
    GroupedAppendNewAt(rows, row);
    KeysOfAppend(rows, row);
    assert Grouped(rows + [row]).Keys == Grouped(rows)[row.resourceKey := Assemble(row.resourceKey, [row])].Keys;
  }

  lemma GroupedAppendNewAt(rows: seq<Row>, row: Row)
    requires row.resourceKey !in KeysOf(rows)
    ensures forall k :: k in Grouped(rows + [row]) ==>
              Grouped(rows + [row])[k] == Grouped(rows)[row.resourceKey := Assemble(row.resourceKey, [row])][k]
  {
    forall k | k in Grouped(rows + [row]) {
      GroupedAppendAt(rows, row, k);
    }
  }

  // ---------------------------------------------------------------------
  // The two readers
  // ---------------------------------------------------------------------

  /**
   * GetAll: walks the joined rows once, creating a resource for the first row
   * of each key and appending a translation for every later row of that key.
   * The result is the lookup; the order in which the C# code then enumerates
   * its values is not modelled.
   */
  method GetAll(rows: seq<Row>) returns (lookup: map<string, LocalizationResource>)
    ensures lookup == Grouped(rows)
  {
    lookup := map[];
    var i := 0;
    while i < |rows|
      invariant 0 <= i <= |rows|
      invariant lookup == Grouped(rows[..i])
    {
      var row := rows[i];
      var key := row.resourceKey;
      assert rows[..i + 1] == rows[..i] + [row];
      if key in lookup {
        // known key: the row only contributes a translation
        var resource := lookup[key];
        resource := resource.(translations := resource.translations + [TranslationOf(row, resource.id)]);
        lookup := lookup[key := resource];
        GroupedAppendKnown(rows[..i], row);
      } else {
        // new key: the row supplies the metadata and the first translation
        var result := LocalizationResource(row.id, key, row.author, row.fromCode, row.isHidden,
                                           row.isModified, row.modificationDate, row.notes, []);
        result := result.(translations := result.translations + [TranslationOf(row, result.id)]);
        lookup := lookup[key := result];
        GroupedAppendNew(rows[..i], row);
      }
      i := i + 1;
    }
    assert rows[..i] == rows;
  }

  /**
   * GetByKey: `rows` are the rows of the query filtered on the key (that query
   * does not select the ResourceKey column, so the rows' own key is ignored and
   * the argument is used). A null key throws; no rows gives null; otherwise the
   * first row supplies the metadata and every row one translation.
   */
  method GetByKey(resourceKey: Option<string>, rows: seq<Row>) returns (result: Outcome<Option<LocalizationResource>>)
    ensures resourceKey == None ==> result == ArgumentNullException("resourceKey")
    ensures resourceKey != None && rows == [] ==> result == Ok(None)
    ensures resourceKey != None && rows != [] ==> result == Ok(Some(Assemble(resourceKey.value, rows)))
  {
    if resourceKey == None {
      return ArgumentNullException("resourceKey");
    }
    if rows == [] {
      return Ok(None);
    }
    var key := resourceKey.value;
    var first := rows[0];
    var resource := LocalizationResource(first.id, key, first.author, first.fromCode, first.isHidden,
                                         first.isModified, first.modificationDate, first.notes, []);
    // the first row also contributes the first translation
    resource := resource.(translations := resource.translations + [TranslationOf(first, resource.id)]);
    assert rows[..1] == [first];
    var i := 1;
    while i < |rows|
      invariant 1 <= i <= |rows|
      invariant resource == Assemble(key, rows[..i])
    {
      assert rows[..i + 1] == rows[..i] + [rows[i]];
      TranslationsOfAppend(rows[..i], rows[i], first.id);
      resource := resource.(translations := resource.translations + [TranslationOf(rows[i], resource.id)]);
      i := i + 1;
    }
    assert rows[..i] == rows;
    return Ok(Some(resource));
  }

  // ---------------------------------------------------------------------
  // Properties of the aggregation
  // ---------------------------------------------------------------------

  lemma {:induction false} FirstOfGroup(rows: seq<Row>, i: nat)
    requires i < |rows|
    requires forall j :: 0 <= j < i ==> rows[j].resourceKey != rows[i].resourceKey
    ensures RowsWithKey(rows, rows[i].resourceKey)[0] == rows[i]
  {
    var n, key := |rows|, rows[i].resourceKey;
    var front := rows[..n - 1];
    assert rows == front + [rows[n - 1]];
    RowsWithKeyAppend(front, rows[n - 1], key);
    if i < n - 1 {
      FirstOfGroup(front, i);
    }
  }

  /**
   * The metadata of a resource comes from the first row with its key; the
   * resource columns of later rows with that key play no part.
   */
  lemma FirstRowWins(rows: seq<Row>, i: nat)
    requires i < |rows|
    requires forall j :: 0 <= j < i ==> rows[j].resourceKey != rows[i].resourceKey
    ensures rows[i].resourceKey in Grouped(rows)
    ensures var r, row := Grouped(rows)[rows[i].resourceKey], rows[i];
            && r.id == row.id && r.author == row.author && r.fromCode == row.fromCode
            && r.isHidden == row.isHidden && r.isModified == row.isModified
            && r.modificationDate == row.modificationDate && r.notes == row.notes
            && r.translations[0] == TranslationOf(row, row.id)
  {
    assert rows[i] in rows;
    FirstOfGroup(rows, i);
  }

  /**
   * Every resource in the lookup carries its own key, has at least one
   * translation, and owns each of its translations by Id.
   */
  lemma GroupedResourceIsConsistent(rows: seq<Row>, key: string)
    requires key in Grouped(rows)
    ensures var r := Grouped(rows)[key];
            && r.resourceKey == key
            && |r.translations| >= 1
            && forall t :: t in r.translations ==> t.resourceId == r.id
  {
  }

  /** No row is lost: every row's translation is among its resource's translations. */
  lemma EveryRowLands(rows: seq<Row>, i: nat)
    requires i < |rows|
    ensures rows[i].resourceKey in Grouped(rows)
    ensures var owner := Grouped(rows)[rows[i].resourceKey];
            TranslationOf(rows[i], owner.id) in owner.translations
  {
  }

  /**
   * The translations of the resource for `key` are exactly the translations
   * of the rows with that key, each owned by that resource.
   */
  lemma TranslationsAreRowsWithKey(rows: seq<Row>, key: string, t: LocalizationResourceTranslation)
    requires key in KeysOf(rows)
    ensures key in Grouped(rows)
    ensures var owner := Grouped(rows)[key];
            t in owner.translations <==>
              exists r :: r in rows && r.resourceKey == key && t == TranslationOf(r, owner.id)
  {
  }

  /**
   * When the filtered query returns the rows of `key` in the order the joined
   * query returns them, GetByKey yields exactly the resource GetAll has for
   * that key, and null when GetAll has none.
   */
  lemma GetByKeyAgreesWithGetAll(rows: seq<Row>, key: string)
    ensures var filtered := RowsWithKey(rows, key);
            && (filtered == [] <==> key !in Grouped(rows))
            && (filtered != [] ==> Assemble(key, filtered) == Grouped(rows)[key])
  {
  }

  // ---------------------------------------------------------------------
  // The writes, against an in-memory pair of tables
  // ---------------------------------------------------------------------

  /** A row of LocalizationResources, without its Id (the map key). */
  datatype ResourceRecord = ResourceRecord(
    resourceKey: string,
    author: string,
    fromCode: bool,
    isHidden: bool,
    isModified: bool,
    modificationDate: DateTime,
    notes: Option<string>)

  /** A row of LocalizationResourceTranslations, without its Id (the map key). */
  datatype TranslationRecord = TranslationRecord(language: string, resourceId: Id, value: Option<string>)

  /**
   * The two tables, keyed by Id. New translation rows take their Id from an
   * identity counter that is above every Id in use.
   */
  class Database {
    var resources: map<Id, ResourceRecord>
    var translations: map<Id, TranslationRecord>
    var nextTranslationId: Id

    ghost predicate Valid()
      reads this
    {
      forall id :: id in translations ==> id < nextTranslationId
    }

    constructor(resources: map<Id, ResourceRecord>, translations: map<Id, TranslationRecord>, nextTranslationId: Id)
      requires forall id :: id in translations ==> id < nextTranslationId
      ensures Valid()
      ensures this.resources == resources && this.translations == translations
      ensures this.nextTranslationId == nextTranslationId
    {
      this.resources := resources;
      this.translations := translations;
      this.nextTranslationId := nextTranslationId;
    }

    /**
     * Inserts one translation row with the translation's Language, ResourceId
     * and Value. The owner is taken from `translation.resourceId`; `resource`
     * is only checked for null. A null Value leaves its parameter unsupplied,
     * so the statement fails and nothing is inserted.
     */
    method AddTranslationForResource(resource: Option<LocalizationResource>,
                                     translation: Option<LocalizationResourceTranslation>)
      returns (outcome: Outcome<()>)
      requires Valid()
      modifies this
      ensures Valid()
      ensures resource == None ==> outcome == ArgumentNullException("resource") && unchanged(this)
      ensures resource != None && translation == None ==>
                outcome == ArgumentNullException("translation") && unchanged(this)
      ensures resource != None && translation != None && translation.value.value == None ==>
                outcome == ParameterNotSupplied("translation") && unchanged(this)
      ensures resource != None && translation != None && translation.value.value != None ==>
                var t := translation.value;
                && outcome == Ok(())
                && old(nextTranslationId) !in old(translations)
                && translations == old(translations)[old(nextTranslationId) := TranslationRecord(t.language, t.resourceId, t.value)]
                && resources == old(resources)
    {
      if resource == None {
        return ArgumentNullException("resource");
      }
      if translation == None {
        return ArgumentNullException("translation");
      }
      var t := translation.value;
      if t.value == None {
        return ParameterNotSupplied("translation");
      }
      translations := translations[nextTranslationId := TranslationRecord(t.language, t.resourceId, t.value)];
      nextTranslationId := nextTranslationId + 1;
      outcome := Ok(());
    }

    /**
     * Sets Value of the translation row whose Id is the translation's Id; no
     * other column or row changes. A null Value makes the statement fail with
     * nothing changed.
     */
    method UpdateTranslation(resource: Option<LocalizationResource>,
                             translation: Option<LocalizationResourceTranslation>)
      returns (outcome: Outcome<()>)
      requires Valid()
      modifies this
      ensures Valid()
      ensures resource == None ==> outcome == ArgumentNullException("resource") && unchanged(this)
      ensures resource != None && translation == None ==>
                outcome == ArgumentNullException("translation") && unchanged(this)
      ensures resource != None && translation != None && translation.value.value == None ==>
                outcome == ParameterNotSupplied("translation") && unchanged(this)
      ensures resource != None && translation != None && translation.value.value != None ==>
                var t, before := translation.value, old(translations);
                && outcome == Ok(())
                && translations == (if t.id in before then before[t.id := before[t.id].(value := t.value)] else before)
                && resources == old(resources)
                && nextTranslationId == old(nextTranslationId)
    {
      if resource == None {
        return ArgumentNullException("resource");
      }
      if translation == None {
        return ArgumentNullException("translation");
      }
      var t := translation.value;
      if t.value == None {
        return ParameterNotSupplied("translation");
      }
      if t.id in translations {
        translations := translations[t.id := translations[t.id].(value := t.value)];
      }
      outcome := Ok(());
    }

    /**
     * Sets IsModified, ModificationDate and Notes of the resource row whose Id
     * is the resource's Id; no other column or row changes. Null Notes make
     * the statement fail with nothing changed.
     */
    method UpdateResource(resource: Option<LocalizationResource>) returns (outcome: Outcome<()>)
      requires Valid()
      modifies this
      ensures Valid()
      ensures resource == None ==> outcome == ArgumentNullException("resource") && unchanged(this)
      ensures resource != None && resource.value.notes == None ==>
                outcome == ParameterNotSupplied("notes") && unchanged(this)
      ensures resource != None && resource.value.notes != None ==>
                var r, before := resource.value, old(resources);
                && outcome == Ok(())
                && resources == (if r.id in before
                                 then before[r.id := before[r.id].(isModified := r.isModified,
                                                                   modificationDate := r.modificationDate,
                                                                   notes := r.notes)]
                                 else before)
                && translations == old(translations)
                && nextTranslationId == old(nextTranslationId)
    {
      if resource == None {
        return ArgumentNullException("resource");
      }
      var r := resource.value;
      if r.notes == None {
        return ParameterNotSupplied("notes");
      }
      if r.id in resources {
        resources := resources[r.id := resources[r.id].(isModified := r.isModified,
                                                        modificationDate := r.modificationDate,
                                                        notes := r.notes)];
      }
      outcome := Ok(());
    }
  }
}
