/**
 * The sidebar's use of the browser's `localStorage`: loading a value with a fallback,
 * saving the business details, and backing up and restoring the application's keys.
 *
 * JSON is abstract here: `J` is the type of JSON values, `parse` is `JSON.parse`
 * (`None` where it throws) and `stringify` is `JSON.stringify`.
 */
module Storage {
  import opened Wrappers
  import opened Text

  /** The key-value store: `getItem`, `setItem` and `removeItem` read and write `items`. */
  class LocalStorage {
    var items: map<string, string>

    constructor (initial: map<string, string>)
      ensures items == initial
    {
      items := initial;
    }
  }

  /** `LOCALSTORAGE_KEYS`: the keys a backup holds and a restore accepts. */
  const LocalStorageKeys: seq<string> :=
    ["inventoryProducts", "salesInvoices", "debtors", "debtTransactions", "businessName", "businessPhone"]

  lemma LocalStorageKeysDistinct()
    ensures forall i, j :: 0 <= i < j < |LocalStorageKeys| ==> LocalStorageKeys[i] != LocalStorageKeys[j]
  {
  }

  /**
   * What `loadFromLocalStorage` returns: the default for a missing key or the text
   * `undefined`, the parsed value when the text parses, and the default otherwise.
   */
  function LoadValue<J>(items: map<string, string>, key: string, default: J, parse: string -> Option<J>): (v: J)
    ensures key !in items || items[key] == "undefined" ==> v == default
    ensures key in items && items[key] != "undefined" && parse(items[key]).Some? ==> v == parse(items[key]).value
    ensures key in items && parse(items[key]).None? ==> v == default
  {
    if key !in items || items[key] == "undefined" then default
    else match parse(items[key])
      case Some(v) => v
      case None => default
  }

  /**
   * `loadFromLocalStorage`: returns `LoadValue`, and removes the key when its text does
   * not parse, leaving every other entry as it was.
   */
  method LoadFromLocalStorage<J>(store: LocalStorage, key: string, default: J, parse: string -> Option<J>)
    returns (value: J)
    modifies store
    ensures value == LoadValue(old(store.items), key, default, parse)
    ensures key in old(store.items) && old(store.items)[key] != "undefined" && parse(old(store.items)[key]).None? ==>
      store.items == old(store.items) - {key}
    ensures !(key in old(store.items) && old(store.items)[key] != "undefined" && parse(old(store.items)[key]).None?) ==>
      store.items == old(store.items)
  {
    if key !in store.items || store.items[key] == "undefined" {
      return default;
    }
    var parsed := parse(store.items[key]);
    if parsed.None? {
      store.items := store.items - {key};
      return default;
    }
    value := parsed.value;
  }

  /** `saveToLocalStorage`: stores the value's JSON text under the key. */
  method SaveToLocalStorage<J>(store: LocalStorage, key: string, data: J, stringify: J -> string)
    modifies store
    ensures store.items == old(store.items)[key := stringify(data)]
  {
    store.items := store.items[key := stringify(data)];
  }

  /** `handleSaveBusinessDetails`: stores the trimmed name and phone as JSON strings. */
  method SaveBusinessDetails(store: LocalStorage, businessName: string, businessPhone: string,
                             stringify: string -> string)
    modifies store
    ensures store.items == old(store.items)["businessName" := stringify(Trim(businessName))]
                                           ["businessPhone" := stringify(Trim(businessPhone))]
    ensures forall k :: k != "businessName" && k != "businessPhone" ==>
      (k in store.items <==> k in old(store.items)) && (k in store.items ==> store.items[k] == old(store.items)[k])
  {
    SaveToLocalStorage(store, "businessName", Trim(businessName), stringify);
    SaveToLocalStorage(store, "businessPhone", Trim(businessPhone), stringify);
  }

  /**
   * The value a backup holds for one key: `null` for a missing or empty entry, the
   * parsed value when the text parses, and the text itself (as a JSON string) otherwise.
   */
  function BackupValue<J>(items: map<string, string>, key: string,
                          parse: string -> Option<J>, jnull: J, jstring: string -> J): J
  {
    if key !in items || items[key] == "" then jnull
    else match parse(items[key])
      case Some(v) => v
      case None => jstring(items[key])
  }

  /** The backup object, one entry per key of `LocalStorageKeys` in that order. */
  function BackupOf<J>(items: map<string, string>, parse: string -> Option<J>, jnull: J, jstring: string -> J)
    : (backup: seq<(string, J)>)
    ensures |backup| == |LocalStorageKeys|
    ensures forall i :: 0 <= i < |backup| ==>
      backup[i].0 == LocalStorageKeys[i] && backup[i].1 == BackupValue(items, LocalStorageKeys[i], parse, jnull, jstring)
  {
    seq(|LocalStorageKeys|, i requires 0 <= i < |LocalStorageKeys| =>
      (LocalStorageKeys[i], BackupValue(items, LocalStorageKeys[i], parse, jnull, jstring)))
  }

  /** `handleBackupData`'s `forEach`: collects the backup object; the store is only read. */
  method BackupData<J>(store: LocalStorage, parse: string -> Option<J>, jnull: J, jstring: string -> J)
    returns (backup: seq<(string, J)>)
    ensures backup == BackupOf(store.items, parse, jnull, jstring)
  {
    backup := [];
    var i := 0;
    while i < |LocalStorageKeys|
      invariant 0 <= i <= |LocalStorageKeys|
      invariant backup == BackupOf(store.items, parse, jnull, jstring)[..i]
    {
      var key := LocalStorageKeys[i];
      var value := BackupValue(store.items, key, parse, jnull, jstring);
      backup := backup + [(key, value)];
      i := i + 1;
    }
  }

  /**
   * The chosen file, as `FileReader` and `JSON.parse` leave it. An object is its entries
   * in key order, each key once, as `Object.keys` lists them (`JSON.parse` keeps only
   * the last value of a key that the text repeats).
   */
  datatype BackupFile<J> = NoFile | Unparseable | NotAnObject | Object(entries: seq<(string, J)>)

  datatype RestoreOutcome = NoFileChosen | InvalidJson | InvalidBackup | NothingRestored | Restored(keysRestored: nat)

  /**
   * The store after a restore loop that, for each whitelisted entry in order, stores
   * `encode(value)` or, where that is `None`, removes the key.
   */
  function RestoredItems<J>(items: map<string, string>, entries: seq<(string, J)>, encode: J -> Option<string>)
    : map<string, string>
  {
    if entries == [] then items
    else
      var prev := RestoredItems(items, entries[..|entries| - 1], encode);
      var (key, value) := entries[|entries| - 1];
      if key !in LocalStorageKeys then prev
      else match encode(value)
        case Some(text) => prev[key := text]
        case None => prev - {key}
  }

  /** The restore as written: `setItem(key, JSON.stringify(value))` for every whitelisted entry. */
  function AsText<J>(stringify: J -> string): J -> Option<string> {
    (v: J) => Some(stringify(v))
  }

  /** A restore that removes the key for a `null` value instead of storing the text `null`. */
  function NullRemoves<J(==)>(stringify: J -> string, jnull: J): J -> Option<string> {
    (v: J) => if v == jnull then None else Some(stringify(v))
  }

  /** `keysRestored` after the loop: the number of whitelisted entries. */
  function CountWhitelisted<J>(entries: seq<(string, J)>): (n: nat)
    ensures n <= |entries|
  {
    if entries == [] then 0
    else CountWhitelisted(entries[..|entries| - 1]) + (if entries[|entries| - 1].0 in LocalStorageKeys then 1 else 0)
  }

  /** A key outside the whitelist keeps its entry (or its absence) through a restore. */
  lemma {:induction false} RestoreLeavesOtherKeys<J>(items: map<string, string>, entries: seq<(string, J)>,
                                                      encode: J -> Option<string>, key: string)
    requires key !in LocalStorageKeys
    ensures key in RestoredItems(items, entries, encode) <==> key in items
    ensures key in items ==> RestoredItems(items, entries, encode)[key] == items[key]
  {
    if entries != [] {
      RestoreLeavesOtherKeys(items, entries[..|entries| - 1], encode, key);
    }
  }

  /** A restore that finds no whitelisted key writes nothing. */
  lemma {:induction false} NothingWhitelistedChangesNothing<J>(items: map<string, string>, entries: seq<(string, J)>,
                                                               encode: J -> Option<string>)
    requires CountWhitelisted(entries) == 0
    ensures RestoredItems(items, entries, encode) == items
  {
    if entries != [] {
      NothingWhitelistedChangesNothing(items, entries[..|entries| - 1], encode);
    }
  }

  /**
   * With distinct keys, every whitelisted entry ends up as its encoding: stored as that
   * text, or absent where the encoding is `None`.
   */
  lemma {:induction false} RestoreWritesEntry<J>(items: map<string, string>, entries: seq<(string, J)>,
                                                 encode: J -> Option<string>, i: nat)
    requires i < |entries| && entries[i].0 in LocalStorageKeys
    requires forall a, b :: 0 <= a < b < |entries| ==> entries[a].0 != entries[b].0
    ensures entries[i].0 in RestoredItems(items, entries, encode) <==> encode(entries[i].1).Some?
    ensures encode(entries[i].1).Some? ==>
      RestoredItems(items, entries, encode)[entries[i].0] == encode(entries[i].1).value
  {
    var n := |entries| - 1;
    if i < n {
      RestoreWritesEntry(items, entries[..n], encode, i);
      assert entries[..n][i] == entries[i];
    }
  }

  /**
   * Restoring a backup of any store restores all six keys, each to the JSON text of
   * the value the backup holds for it.
   */
  lemma RestoreOfBackup<J>(before: map<string, string>, items: map<string, string>,
                           parse: string -> Option<J>, jnull: J, jstring: string -> J, encode: J -> Option<string>)
    ensures CountWhitelisted(BackupOf(before, parse, jnull, jstring)) == |LocalStorageKeys|
    ensures forall key :: key in LocalStorageKeys ==>
      var after := RestoredItems(items, BackupOf(before, parse, jnull, jstring), encode);
      var e := encode(BackupValue(before, key, parse, jnull, jstring));
      (key in after <==> e.Some?) && (e.Some? ==> after[key] == e.value)
  {
    var backup := BackupOf(before, parse, jnull, jstring);
    AllWhitelistedCount(backup);
    LocalStorageKeysDistinct();
    forall key | key in LocalStorageKeys
      ensures var after := RestoredItems(items, backup, encode);
        var e := encode(BackupValue(before, key, parse, jnull, jstring));
        (key in after <==> e.Some?) && (e.Some? ==> after[key] == e.value)
    {
      var i :| 0 <= i < |LocalStorageKeys| && LocalStorageKeys[i] == key;
      RestoreWritesEntry(items, backup, encode, i);
    }
  }

  lemma {:induction false} AllWhitelistedCount<J>(entries: seq<(string, J)>)
    requires forall i :: 0 <= i < |entries| ==> entries[i].0 in LocalStorageKeys
    ensures CountWhitelisted(entries) == |entries|
  {
    if entries != [] {
      AllWhitelistedCount(entries[..|entries| - 1]);
    }
  }

  /**
   * `handleRestoreData` once the file is read: rejects a missing file, text that is not
   * JSON and JSON that is not an object; otherwise writes each whitelisted entry and
   * counts it, and fails, having written nothing, when the count is 0.
   */
  method RestoreData<J>(store: LocalStorage, file: BackupFile<J>, stringify: J -> string)
    returns (outcome: RestoreOutcome)
    modifies store
    ensures file.NoFile? ==> outcome == NoFileChosen
    ensures file.Unparseable? ==> outcome == InvalidJson
    ensures file.NotAnObject? ==> outcome == InvalidBackup
    ensures !file.Object? ==> store.items == old(store.items)
    ensures file.Object? ==>
      && store.items == RestoredItems(old(store.items), file.entries, AsText(stringify))
      && (CountWhitelisted(file.entries) == 0 ==> outcome == NothingRestored && store.items == old(store.items))
      && (CountWhitelisted(file.entries) > 0 ==> outcome == Restored(CountWhitelisted(file.entries)))
  {
    match file {
      case NoFile => return NoFileChosen;
      case Unparseable => return InvalidJson;
      case NotAnObject => return InvalidBackup;
      case Object(entries) =>
        var keysRestored := 0;
        var i := 0;
        while i < |entries|
          invariant 0 <= i <= |entries|
          invariant store.items == RestoredItems(old(store.items), entries[..i], AsText(stringify))
          invariant keysRestored == CountWhitelisted(entries[..i])
        {
          assert entries[..i + 1][..i] == entries[..i];
          var (key, value) := entries[i];
          if key in LocalStorageKeys {
            store.items := store.items[key := stringify(value)];
            keysRestored := keysRestored + 1;
          }
          i := i + 1;
        }
        assert entries[..i] == entries;
        if keysRestored == 0 {
          NothingWhitelistedChangesNothing(old(store.items), entries, AsText(stringify));
          return NothingRestored;
        }
        outcome := Restored(keysRestored);
    }
  }

  /**
   * A key that is missing when the backup is taken is backed up as `null`, and the
   * restore writes `null`'s JSON text: loading the key afterwards yields `null` instead
   * of the default it yielded before.
   */
  lemma MissingKeyComesBackAsNull<J>(items: map<string, string>, key: string, default: J,
                                     parse: string -> Option<J>, jnull: J, jstring: string -> J,
                                     stringify: J -> string)
    requires key in LocalStorageKeys && key !in items
    requires stringify(jnull) == "null" && parse("null") == Some(jnull)
    ensures LoadValue(items, key, default, parse) == default
    ensures var after := RestoredItems(items, BackupOf(items, parse, jnull, jstring), AsText(stringify));
      key in after && after[key] == "null" && LoadValue(after, key, default, parse) == jnull
  {
    RestoreOfBackup(items, items, parse, jnull, jstring, AsText(stringify));
  }

  /**
   * With `null` restored as a removal, a backup-then-restore leaves every loader's
   * result as it was for each whitelisted key that was missing, empty, or held JSON
   * text of a non-null value (given that `parse` reads back what `stringify` writes).
   */
  lemma RestoreRemovingNullKeepsLoads<J>(items: map<string, string>, key: string, default: J,
                                             parse: string -> Option<J>, jnull: J, jstring: string -> J,
                                             stringify: J -> string)
    requires key in LocalStorageKeys
    requires forall v :: parse(stringify(v)) == Some(v)
    requires key !in items || items[key] == "" ||
      (items[key] != "undefined" && parse(items[key]).Some? && parse(items[key]).value != jnull)
    requires parse("") == None && parse("undefined") == None
    ensures var after := RestoredItems(items, BackupOf(items, parse, jnull, jstring), NullRemoves(stringify, jnull));
      LoadValue(after, key, default, parse) == LoadValue(items, key, default, parse)
  {
    var encode := NullRemoves(stringify, jnull);
    var after := RestoredItems(items, BackupOf(items, parse, jnull, jstring), encode);
    RestoreOfBackup(items, items, parse, jnull, jstring, encode);
    var b := BackupValue(items, key, parse, jnull, jstring);
    if key !in items || items[key] == "" {
      assert b == jnull;
      assert key !in after;
    } else {
      var v := parse(items[key]).value;
      assert b == v && v != jnull;
      assert after[key] == stringify(v);
      assert parse(stringify(v)) == Some(v);
    }
  }
}
