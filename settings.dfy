/**
 The persisted settings (src/components/App/App.jsx:22-38): a key/value
 store that survives sessions. A scalar setting is stored as its own text; an
 array setting is stored in an encoding that gives the same array back. The
 store is a map from keys to what was written; the encoding itself is not
 spelled out.
 */
module Settings {

  /** What a key holds: text written by `storeSetting`, or a list written by `storeArraySetting`. */
  datatype Stored = Text(text: string) | Items(items: seq<string>)

  /** The outcome of reading an array setting: a list, or text that was not written as a list. */
  datatype ArrayRead = Parsed(items: seq<string>) | Malformed(text: string)

  const SearchModeKey: string := "searchMode"

  const CategoryFiltersKey: string := "categoryFilters"

  const RegionFiltersKey: string := "regionFilters"

  /** `getSetting`: the stored value of `key`, or `default` when nothing is stored under it. */
  function GetSetting(storage: map<string, Stored>, key: string, default: Stored): (r: Stored)
    ensures key in storage ==> r == storage[key]
    ensures key !in storage ==> r == default
  {
    if key in storage then storage[key] else default
  }

  /** `storeSetting`. */
  function StoreSetting(storage: map<string, Stored>, key: string, value: string): map<string, Stored> {
    storage[key := Text(value)]
  }

  /**
   `getArraySetting`: the stored list of `key`, or `default` when nothing is
   stored under it. Text that was not stored as a list is reported as malformed.
   */
  function GetArraySetting(storage: map<string, Stored>, key: string, default: seq<string>): (r: ArrayRead)
    ensures key !in storage ==> r == Parsed(default)
    ensures r.Parsed? && key in storage ==> storage[key] == Items(r.items)
  {
    if key !in storage then Parsed(default)
    else match storage[key]
      case Items(xs) => Parsed(xs)
      case Text(t) => Malformed(t)
  }

  /** `storeArraySetting`. */
  function StoreArraySetting(storage: map<string, Stored>, key: string, value: seq<string>): map<string, Stored> {
    storage[key := Items(value)]
  }

  /** A stored list, even an empty one, takes the place of the default. */
  lemma StoredListOverridesDefault(storage: map<string, Stored>, key: string, items: seq<string>, default: seq<string>)
    requires key in storage && storage[key] == Items(items)
    ensures GetArraySetting(storage, key, default) == Parsed(items)
  {
  }

  /** A scalar setting reads back the text last stored under its key, whatever was stored before. */
  lemma ScalarSettingRoundTrip(storage: map<string, Stored>, key: string, value: string, default: Stored)
    ensures GetSetting(StoreSetting(storage, key, value), key, default) == Text(value)
  {
  }

  /** An array setting reads back what was last stored under its key, whatever was stored before. */
  lemma ArraySettingRoundTrip(storage: map<string, Stored>, key: string, value: seq<string>, default: seq<string>)
    ensures GetArraySetting(StoreArraySetting(storage, key, value), key, default) == Parsed(value)
  {
  }

  /** Writing one key leaves the reading of every other key as it was. */
  lemma StoreLeavesOtherKeys(storage: map<string, Stored>, key: string, other: string, value: Stored,
                             default: seq<string>, d: Stored)
    requires key != other
    ensures GetArraySetting(storage[key := value], other, default) == GetArraySetting(storage, other, default)
    ensures GetSetting(storage[key := value], other, d) == GetSetting(storage, other, d)
  {
  }
}
