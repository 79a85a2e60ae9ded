/**
 * Local persistence of the portfolio document: one JSON text under the key
 * `portfolio-data`, read back with a fall-back to the document bundled with
 * the site. The bundled document is a parameter of the model.
 */
module PortfolioStore {
  import opened Wrappers
  import opened Json
  import opened PortfolioTypes
  import opened Storage

  const StorageKey := "portfolio-data"

  /**
   * What `getPortfolioData` returns for the stored items: the parsed stored
   * text when it is present, non-empty and parses; the bundled document in
   * every other case (an absent key, an empty string, a parse that throws).
   */
  function Load(items: map<string, string>, codec: Codec<PortfolioData>, bundled: PortfolioData): (r: PortfolioData)
    ensures r != bundled ==> StorageKey in items && items[StorageKey] != ""
                             && codec.parse(items[StorageKey]) == Some(r)
    ensures StorageKey in items && items[StorageKey] != "" && codec.parse(items[StorageKey]).Some?
            ==> r == codec.parse(items[StorageKey]).value
    ensures StorageKey !in items || items[StorageKey] == "" || codec.parse(items[StorageKey]).None?
            ==> r == bundled
  {
    if StorageKey in items && items[StorageKey] != "" then
      codec.parse(items[StorageKey]).GetOr(bundled)
    else
      bundled
  }

  /** `getPortfolioData`: reads the store and never writes it (it has no modifies clause). */
  method GetPortfolioData(storage: LocalStorage, codec: Codec<PortfolioData>, bundled: PortfolioData)
    returns (d: PortfolioData)
    ensures d == Load(storage.items, codec, bundled)
  {
    var stored := storage.GetItem(StorageKey);
    d := bundled;
    if stored.Some? && stored.value != "" {
      var parsed := codec.parse(stored.value);
      if parsed.Some? {
        d := parsed.value;
      }
    }
  }

  /** `setPortfolioData`: overwrites the one key with the document's text, whatever was there. */
  method SetPortfolioData(storage: LocalStorage, codec: Codec<PortfolioData>, d: PortfolioData)
    modifies storage
    ensures storage.items == Save(old(storage.items), codec, d)
  {
    storage.SetItem(StorageKey, codec.stringify(d));
  }

  /** The store after `setPortfolioData(d)`. */
  function Save(items: map<string, string>, codec: Codec<PortfolioData>, d: PortfolioData): (r: map<string, string>)
    ensures StorageKey in r && r[StorageKey] == codec.stringify(d)
    ensures forall k | k != StorageKey :: (k in r <==> k in items) && (k in items ==> r[k] == items[k])
  {
    items[StorageKey := codec.stringify(d)]
  }

  /** After `setPortfolioData(d)`, `getPortfolioData()` returns `d`. */
  lemma SaveThenLoad(items: map<string, string>, codec: Codec<PortfolioData>, bundled: PortfolioData, d: PortfolioData)
    requires Lawful(codec)
    ensures Load(Save(items, codec, d), codec, bundled) == d
  {
    assert codec.stringify(d) != "" && codec.parse(codec.stringify(d)) == Some(d);
  }

  /** Saving twice keeps only the second document: the store is last-write-wins. */
  lemma SaveOverwrites(items: map<string, string>, codec: Codec<PortfolioData>, d1: PortfolioData, d2: PortfolioData)
    ensures Save(Save(items, codec, d1), codec, d2) == Save(items, codec, d2)
  {
  }

  /** An empty store (a first visit) yields the bundled document. */
  lemma FreshStoreLoadsBundled(codec: Codec<PortfolioData>, bundled: PortfolioData)
    ensures Load(map[], codec, bundled) == bundled
  {
  }
}
