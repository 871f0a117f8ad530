/**
 * The plugin's directory: host label -> record kind ("A", "AAAA",
 * "CNAME") -> list of strings (addresses or alias targets).
 */
module Directory {
  type Entry = map<string, seq<string>>
  type Directory = map<string, Entry>

  /** A list of an entry, reading a missing key as the empty list. */
  function Get(entry: Entry, kind: string): seq<string>
  {
    if kind in entry then entry[kind] else []
  }

  /** A list of the directory, reading a missing host or kind as the empty list. */
  function GetList(d: Directory, key: string, kind: string): seq<string>
  {
    if key in d then Get(d[key], kind) else []
  }

  /** Only the three record kinds occur, and a list is stored only once it is non-empty. */
  ghost predicate ShapedEntry(entry: Entry)
  {
    forall kind :: kind in entry ==> (kind == "A" || kind == "AAAA" || kind == "CNAME") && |entry[kind]| > 0
  }

  ghost predicate WellShaped(d: Directory)
  {
    forall key :: key in d ==> ShapedEntry(d[key])
  }

  /** Two well-shaped entries with the same three lists are equal. */
  lemma EntryExtensionality(e1: Entry, e2: Entry)
    requires ShapedEntry(e1) && ShapedEntry(e2)
    requires Get(e1, "A") == Get(e2, "A") && Get(e1, "AAAA") == Get(e2, "AAAA") && Get(e1, "CNAME") == Get(e2, "CNAME")
    ensures e1 == e2
  {
    forall kind | kind in e1
      ensures kind in e2 && e1[kind] == e2[kind]
    {
      assert Get(e1, kind) == Get(e2, kind);
    }
    forall kind | kind in e2
      ensures kind in e1
    {
      assert Get(e1, kind) == Get(e2, kind);
    }
    assert e1.Keys == e2.Keys;
  }

  /** Two well-shaped directories with the same keys and the same three lists per key are equal. */
  lemma Extensionality(d1: Directory, d2: Directory)
    requires WellShaped(d1) && WellShaped(d2)
    requires d1.Keys == d2.Keys
    requires forall key :: key in d1 ==> GetList(d1, key, "A") == GetList(d2, key, "A")
    requires forall key :: key in d1 ==> GetList(d1, key, "AAAA") == GetList(d2, key, "AAAA")
    requires forall key :: key in d1 ==> GetList(d1, key, "CNAME") == GetList(d2, key, "CNAME")
    ensures d1 == d2
  {
    forall key | key in d1
      ensures d1[key] == d2[key]
    {
      assert GetList(d1, key, "A") == GetList(d2, key, "A");
      assert GetList(d1, key, "AAAA") == GetList(d2, key, "AAAA");
      assert GetList(d1, key, "CNAME") == GetList(d2, key, "CNAME");
      EntryExtensionality(d1[key], d2[key]);
    }
  }
}
