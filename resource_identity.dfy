/** What the apply action derives from a manifest's `apiVersion` and `kind`
    strings: `apiVersion.split('/')` into group and version, and the
    lower-case-plus-`s` plural. */
module ResourceIdentity {
  import opened Wrappers

  /** `s.split(sep)` in JavaScript: the pieces between separators, empty
      pieces included; the empty string splits into `[""]`. */
  function Split(s: string, sep: char): (parts: seq<string>)
    ensures |parts| >= 1
    ensures forall i :: 0 <= i < |parts| ==> sep !in parts[i]
  {
    if s == [] then [""]
    else
      var rest := Split(s[1..], sep);
      if s[0] == sep then [""] + rest else [[s[0]] + rest[0]] + rest[1..]
  }

  /** `parts.join(sep)`. */
  function Join(parts: seq<string>, sep: char): string
    requires |parts| >= 1
  {
    if |parts| == 1 then parts[0] else parts[0] + [sep] + Join(parts[1..], sep)
  }

  /** Splitting loses nothing: joining the pieces back gives the string, and
      no piece holds the separator. */
  lemma {:induction false} SplitJoin(s: string, sep: char)
    ensures Join(Split(s, sep), sep) == s
    ensures forall i :: 0 <= i < |Split(s, sep)| ==> sep !in Split(s, sep)[i]
  {
    if s != [] {
      SplitJoin(s[1..], sep);
      var rest := Split(s[1..], sep);
      if s[0] == sep {
        assert Split(s, sep)[1..] == rest;
        assert s == [s[0]] + s[1..];
      } else {
        var parts := Split(s, sep);
        assert parts[1..] == rest[1..];
        if |rest| == 1 {
          assert s == [s[0]] + rest[0];
        } else {
          assert Join(rest, sep) == rest[0] + [sep] + Join(rest[1..], sep);
          assert s == [s[0]] + s[1..];
        }
        forall i | 0 <= i < |parts| ensures sep !in parts[i] {
          if i > 0 {
            assert parts[i] == rest[i];
          }
        }
      }
    }
  }

  /** Joining pieces free of the separator and splitting again gives the
      same pieces back. */
  lemma {:induction false} JoinSplit(parts: seq<string>, sep: char)
    requires |parts| >= 1
    requires forall i :: 0 <= i < |parts| ==> sep !in parts[i]
    ensures Split(Join(parts, sep), sep) == parts
    decreases |parts|, |parts[0]|
  {
    if parts[0] == [] {
      if |parts| > 1 {
        JoinSplit(parts[1..], sep);
        assert Join(parts, sep) == [sep] + Join(parts[1..], sep);
        assert Join(parts, sep)[1..] == Join(parts[1..], sep);
        assert parts == [""] + parts[1..];
      }
    } else {
      var c := parts[0][0];
      var shorter := [parts[0][1..]] + parts[1..];
      assert c != sep by { assert c in parts[0]; }
      forall i | 0 <= i < |shorter| ensures sep !in shorter[i] {
        if i == 0 {
          assert forall x :: x in parts[0][1..] ==> x in parts[0];
        } else {
          assert shorter[i] == parts[i];
        }
      }
      JoinSplit(shorter, sep);
      assert shorter[1..] == parts[1..];
      assert Join(parts, sep) == [c] + Join(shorter, sep) by {
        assert parts[0] == [c] + parts[0][1..];
        if |parts| > 1 {
          assert Join(shorter, sep) == parts[0][1..] + [sep] + Join(parts[1..], sep);
        }
      }
      assert Join(parts, sep)[1..] == Join(shorter, sep);
      assert shorter[0] == parts[0][1..] && parts[0] == [c] + parts[0][1..];
      assert parts == [parts[0]] + parts[1..];
    }
  }

  /** A string without the separator is one piece. */
  lemma {:induction false} SplitWithoutSeparator(s: string, sep: char)
    requires sep !in s
    ensures Split(s, sep) == [s]
  {
    if s != [] {
      assert sep !in s[1..] by { assert forall x :: x in s[1..] ==> x in s; }
      SplitWithoutSeparator(s[1..], sep);
      assert s == [s[0]] + s[1..];
    }
  }

  /** The first separator ends the first piece. */
  lemma {:induction false} SplitAtFirstSeparator(a: string, b: string, sep: char)
    requires sep !in a
    ensures Split(a + [sep] + b, sep) == [a] + Split(b, sep)
  {
    if a == [] {
      assert a + [sep] + b == [sep] + b;
      assert ([sep] + b)[1..] == b;
    } else {
      assert sep !in a[1..] by { assert forall x :: x in a[1..] ==> x in a; }
      SplitAtFirstSeparator(a[1..], b, sep);
      assert (a + [sep] + b)[1..] == a[1..] + [sep] + b;
      assert a == [a[0]] + a[1..];
    }
  }

  /** `words = apiVersion.split('/')`, `group = words[0]`,
      `version = words[1]` (undefined when there is no `/`). */
  function GroupVersion(apiVersion: string): (r: (string, Option<string>))
    ensures '/' !in r.0 && (r.1.Some? ==> '/' !in r.1.value)
    ensures r.1.None? <==> '/' !in apiVersion
  {
    var words := Split(apiVersion, '/');
    SplitJoin(apiVersion, '/');
    assert |words| == 1 ==> Join(words, '/') == words[0];
    assert |words| > 1 ==> '/' in apiVersion by {
      if |words| > 1 {
        assert apiVersion == words[0] + ['/'] + Join(words[1..], '/');
        assert apiVersion[|words[0]|] == '/';
      }
    }
    (words[0], if |words| > 1 then Some(words[1]) else None)
  }

  /** `group/version` with `/`-free parts yields exactly that group and
      version. */
  lemma GroupVersionOf(group: string, version: string)
    requires '/' !in group && '/' !in version
    ensures GroupVersion(group + "/" + version) == (group, Some(version))
  {
    assert group + "/" + version == group + ['/'] + version;
    SplitAtFirstSeparator(group, version, '/');
    SplitWithoutSeparator(version, '/');
  }

  /** The version is absent exactly when `apiVersion` has no `/`, and then
      the group is the whole `apiVersion` (`"v1"` gives group `"v1"`).
      Otherwise `apiVersion` is the group, `/`, the version, and whatever
      further segments there are, which are ignored. */
  lemma GroupVersionParts(apiVersion: string)
    ensures GroupVersion(apiVersion).1.None? <==> '/' !in apiVersion
    ensures GroupVersion(apiVersion).1.None? ==> GroupVersion(apiVersion).0 == apiVersion
    ensures GroupVersion(apiVersion).1.Some? ==>
      var (group, version) := GroupVersion(apiVersion);
      && '/' !in group && '/' !in version.value
      && exists rest :: apiVersion == group + "/" + version.value + rest && (rest == "" || rest[0] == '/')
  {
    var words := Split(apiVersion, '/');
    SplitJoin(apiVersion, '/');
    if |words| == 1 {
      assert Join(words, '/') == words[0];
    } else {
      var rest := if |words| == 2 then "" else "/" + Join(words[2..], '/');
      assert Join(words[1..], '/') == words[1] + rest;
      assert apiVersion == words[0] + "/" + words[1] + rest;
      assert '/' in apiVersion by {
        assert apiVersion[|words[0]|] == '/';
      }
    }
  }

  /** ASCII upper case to lower case; every other character is kept. */
  function LowerChar(c: char): char {
    if 'A' <= c <= 'Z' then (c as int - 'A' as int + 'a' as int) as char else c
  }

  /** `s.toLowerCase()`, on ASCII letters. */
  function ToLower(s: string): (r: string)
    ensures |r| == |s|
    ensures forall i :: 0 <= i < |r| ==> !('A' <= r[i] <= 'Z')
    ensures forall i :: 0 <= i < |s| && 'A' <= s[i] <= 'Z' ==> r[i] as int == s[i] as int + 32
    ensures forall i :: 0 <= i < |s| && !('A' <= s[i] <= 'Z') ==> r[i] == s[i]
  {
    seq(|s|, i requires 0 <= i < |s| => LowerChar(s[i]))
  }

  /** The resource plural: `` `${kind.toLowerCase()}s` ``, whatever the kind
      (no irregular plurals). */
  function Plural(kind: string): (r: string)
    ensures |r| == |kind| + 1 && r[|kind|] == 's'
    ensures r[..|kind|] == ToLower(kind)
  {
    ToLower(kind) + "s"
  }

  /** The plural is one character longer than the kind, ends in `s`, has no
      upper-case ASCII letter, and ignores the case of the kind. */
  lemma PluralShape(kind: string, other: string)
    ensures |Plural(kind)| == |kind| + 1 && Plural(kind)[|kind|] == 's'
    ensures forall i :: 0 <= i < |Plural(kind)| ==> !('A' <= Plural(kind)[i] <= 'Z')
    ensures ToLower(kind) == ToLower(other) ==> Plural(kind) == Plural(other)
    ensures Plural(ToLower(kind)) == Plural(kind)
  {
  }

  /** Lower-casing twice is lower-casing once. */
  lemma ToLowerIdempotent(s: string)
    ensures ToLower(ToLower(s)) == ToLower(s)
  {
    var once := ToLower(s);
    forall i | 0 <= i < |once| ensures ToLower(once)[i] == once[i] {
      assert !('A' <= once[i] <= 'Z');
    }
  }
}
