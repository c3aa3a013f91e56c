/** Group/version/kind triples and the string key under which the wire
    protocol files children of one kind (hookserver.go, KeyForGVK). */
module Kinds {
  import opened Wrappers

  /** A schema.GroupVersionKind. The group is empty for the core API group. */
  datatype GVK = GVK(group: string, version: string, kind: string)

  /** The wire key of a kind: "version/kind" for the core group, otherwise
      "group/version/kind". */
  function KeyForGVK(g: GVK): (key: string)
    ensures |key| == |g.version| + 1 + |g.kind| + (if g.group == "" then 0 else |g.group| + 1)
    ensures g.group != "" ==> key[..|g.group| + 1] == g.group + "/"
    ensures key[|key| - |g.version| - |g.kind| - 1..] == g.version + "/" + g.kind
  {
    if g.group == "" then g.version + "/" + g.kind
    else g.group + "/" + g.version + "/" + g.kind
  }

  /** Kubernetes group, version and kind names never contain a slash. */
  predicate Plain(g: GVK)
  {
    '/' !in g.group && '/' !in g.version && '/' !in g.kind
  }

  /** Number of occurrences of `c` in `s`. */
  function Count(s: string, c: char): nat
  {
    if s == [] then 0 else (if s[0] == c then 1 else 0) + Count(s[1..], c)
  }

  /** Go's strings.Split(s, "/"): the maximal slash-free pieces of `s`, in order. */
  function Split(s: string): (parts: seq<string>)
    ensures |parts| == 1 + Count(s, '/')
    ensures forall i :: 0 <= i < |parts| ==> '/' !in parts[i]
  {
    if s == [] then [""]
    else
      var rest := Split(s[1..]);
      if s[0] == '/' then [""] + rest
      else [[s[0]] + rest[0]] + rest[1..]
  }

  /** Go's strings.Join(parts, "/"). */
  function Join(parts: seq<string>): string
    requires |parts| >= 1
  {
    if |parts| == 1 then parts[0] else parts[0] + "/" + Join(parts[1..])
  }

  /** Reads a wire key back into a kind: two pieces are a core-group kind,
      three pieces with a non-empty first piece are a grouped kind; anything
      else is not a key KeyForGVK can produce. */
  function ParseKey(key: string): Option<GVK>
  {
    var parts := Split(key);
    if |parts| == 2 then Some(GVK("", parts[0], parts[1]))
    else if |parts| == 3 && parts[0] != "" then Some(GVK(parts[0], parts[1], parts[2]))
    else None
  }

  lemma {:induction false} SplitSlashFree(s: string)
    requires '/' !in s
    ensures Split(s) == [s]
  {
    if s != [] {
      SplitSlashFree(s[1..]);
      assert [s[0]] + s[1..] == s;
    }
  }

  /** Splitting at the first slash: a slash-free head becomes the first piece. */
  lemma {:induction false} SplitAfter(a: string, b: string)
    requires '/' !in a
    ensures Split(a + "/" + b) == [a] + Split(b)
  {
    if a == [] {
      assert a + "/" + b == ['/'] + b;
      assert (['/'] + b)[1..] == b;
    } else {
      var s := a + "/" + b;
      assert s[0] == a[0];
      assert s[1..] == a[1..] + "/" + b;
      SplitAfter(a[1..], b);
      assert [a[0]] + a[1..] == a;
    }
  }

  /** Joining the pieces of a split gives the string back. */
  lemma {:induction false} JoinSplit(s: string)
    ensures Join(Split(s)) == s
  {
    if s != [] {
      var rest := Split(s[1..]);
      JoinSplit(s[1..]);
      if s[0] == '/' {
        assert Split(s) == [""] + rest;
        assert Join(Split(s)) == "" + "/" + Join(rest);
        assert s == "/" + s[1..];
      } else if |rest| == 1 {
        assert Split(s) == [[s[0]] + rest[0]];
        assert Join(rest) == rest[0];
        assert s == [s[0]] + s[1..];
      } else {
        var head := [s[0]] + rest[0];
        assert Split(s) == [head] + rest[1..];
        assert Join(Split(s)) == head + "/" + Join(rest[1..]);
        assert Join(rest) == rest[0] + "/" + Join(rest[1..]);
        assert head + "/" + Join(rest[1..]) == [s[0]] + (rest[0] + "/" + Join(rest[1..]));
        assert s == [s[0]] + s[1..];
      }
    }
  }

  /** For slash-free names the key splits back into exactly the triple:
      two pieces for the core group, three otherwise. */
  lemma KeyForGVKSplits(g: GVK)
    requires Plain(g)
    ensures Split(KeyForGVK(g)) ==
      if g.group == "" then [g.version, g.kind] else [g.group, g.version, g.kind]
  {
    SplitSlashFree(g.kind);
    SplitAfter(g.version, g.kind);
    if g.group != "" {
      assert KeyForGVK(g) == g.group + "/" + (g.version + "/" + g.kind);
      SplitAfter(g.group, g.version + "/" + g.kind);
    }
  }

  /** The key of a slash-free kind has one slash for the core group and two otherwise. */
  lemma KeyForGVKSlashCount(g: GVK)
    requires Plain(g)
    ensures Count(KeyForGVK(g), '/') == if g.group == "" then 1 else 2
  {
    KeyForGVKSplits(g);
  }

  /** ParseKey inverts KeyForGVK on slash-free kinds. */
  lemma ParseKeyOfKeyForGVK(g: GVK)
    requires Plain(g)
    ensures ParseKey(KeyForGVK(g)) == Some(g)
  {
    KeyForGVKSplits(g);
  }

  /** KeyForGVK inverts ParseKey: every key ParseKey accepts is reproduced bit-exactly. */
  lemma KeyForGVKOfParseKey(key: string)
    requires ParseKey(key).Some?
    ensures Plain(ParseKey(key).value) && KeyForGVK(ParseKey(key).value) == key
  {
    var parts := Split(key);
    JoinSplit(key);
    if |parts| == 2 {
      assert Join(parts) == parts[0] + "/" + parts[1];
    } else {
      assert Join(parts[1..]) == parts[1] + "/" + parts[2];
    }
  }

  /** Distinct slash-free kinds get distinct keys. */
  lemma KeyForGVKInjective(g1: GVK, g2: GVK)
    requires Plain(g1) && Plain(g2)
    requires KeyForGVK(g1) == KeyForGVK(g2)
    ensures g1 == g2
  {
    ParseKeyOfKeyForGVK(g1);
    ParseKeyOfKeyForGVK(g2);
  }
}
