/**
 * The file store for segments and playlists (`HLSSegmentStore`): one file per
 * URL in a fixed directory, named by a key derived from the URL's absolute
 * string.
 */
module SegmentStore {
  import opened Wrappers
  import opened Text
  import opened Platform

  /** `key(for:)`: the string's `hashValue`, a dash, and its character count. */
  function Key(f: Foundation, u: Url): string {
    var s := f.absoluteString(u);
    IntToString(f.hashValue(s)) + "-" + NatToString(|s|)
  }

  /**
   * URLs whose absolute strings differ in length never share a key, whatever
   * the hash values are.
   */
  lemma KeysDifferByLength(f: Foundation, u: Url, v: Url)
    requires |f.absoluteString(u)| != |f.absoluteString(v)|
    ensures Key(f, u) != Key(f, v)
  {
    var s, t := f.absoluteString(u), f.absoluteString(v);
    if Key(f, u) == Key(f, v) {
      DigitSuffixAfterDash(IntToString(f.hashValue(s)), NatToString(|s|), IntToString(f.hashValue(t)), NatToString(|t|));
      NatToStringInjective(|s|, |t|);
    }
  }

  /**
   * The store. `files` is the directory's content: the bytes of each file, by
   * file name.
   */
  class Store {
    const fnd: Foundation
    /** The `hls-segments` directory under the caches directory. */
    const root: Url
    var files: map<string, Bytes>

    /** A store over a directory that may already hold files from earlier runs. */
    constructor (fnd: Foundation, root: Url, existing: map<string, Bytes>)
      ensures this.fnd == fnd && this.root == root && files == existing
    {
      this.fnd := fnd;
      this.root := root;
      files := existing;
    }

    /** `path(for:)`: the key as a file name under the root directory. */
    function Path(u: Url): Url {
      fnd.appendingPathComponent(root, Key(fnd, u))
    }

    /** `has(_:)`: a file exists under the URL's key. */
    predicate Has(u: Url)
      reads this
    {
      Key(fnd, u) in files
    }

    /** `read(_:)`: the bytes stored under the URL's key, nil when there are none. */
    function Read(u: Url): (r: Option<Bytes>)
      reads this
      ensures r.Some? <==> Has(u)
      ensures r.Some? ==> r.value == files[Key(fnd, u)]
    {
      if Key(fnd, u) in files then Some(files[Key(fnd, u)]) else None
    }

    /**
     * `write(_:for:)`. The write runs later on the store's queue; `lands` says
     * whether the disk accepted it. A failed write is only logged: the caller
     * hears nothing either way. A landed write replaces whatever was stored
     * under the same key, and leaves every other file alone.
     */
    method Write(data: Bytes, u: Url, lands: bool)
      modifies this
      ensures lands ==> Has(u) && Read(u) == Some(data)
      ensures lands ==> forall v :: Key(fnd, v) != Key(fnd, u) ==> Read(v) == old(Read(v))
      ensures !lands ==> files == old(files)
      ensures files == if lands then old(files)[Key(fnd, u) := data] else old(files)
    {
      if lands {
        files := files[Key(fnd, u) := data];
      }
    }

    /**
     * `cachedSummary()`: the names of the files in the directory, each once,
     * in the order the directory lists them.
     */
    method CachedSummary() returns (names: seq<string>)
      ensures |names| == |files|
      ensures forall n :: n in names <==> n in files
      ensures forall i, j :: 0 <= i < j < |names| ==> names[i] != names[j]
    {
      names := [];
      var rest := files.Keys;
      while rest != {}
        invariant rest <= files.Keys
        invariant forall n :: n in names <==> n in files && n !in rest
        invariant forall i, j :: 0 <= i < j < |names| ==> names[i] != names[j]
        invariant |names| + |rest| == |files|
        decreases |rest|
      {
        var n :| n in rest;
        names := names + [n];
        rest := rest - {n};
      }
    }

    /** `clearAll()`: the directory is removed and created again, empty. */
    method ClearAll()
      modifies this
      ensures files == map[]
      ensures forall u :: !Has(u)
    {
      files := map[];
    }
  }

  /** After `clearAll`, the summary lists nothing. */
  method SummaryAfterClear(store: Store) returns (names: seq<string>)
    modifies store
    ensures names == []
  {
    store.ClearAll();
    names := store.CachedSummary();
  }
}
