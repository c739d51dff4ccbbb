/**
 * The host framework's tag-helper attribute list, as far as the component
 * configuration relies on it. A list is an ordered sequence of attributes in
 * which a name may occur more than once. `Add` appends; `SetAttribute`
 * replaces the first entry with the same name and drops the later ones (or
 * appends when there is none); `RemoveAll` drops every entry with the name;
 * `ContainsName` and the indexer (`Lookup`) look for the first match.
 * Names are compared ignoring case.
 */
module AttributeLists {
  import opened Nullable

  /** The value object of an attribute: a string, or a boolean stored as such. */
  datatype Value = Text(text: string) | Flag(flag: bool)

  /** One attribute: a name and a value that may be null. */
  datatype Attribute = Attribute(name: string, value: Option<Value>)

  function LowerAscii(c: char): char {
    if 'A' <= c <= 'Z' then (c as int + 32) as char else c
  }

  /** Case folding used for name comparison (ASCII letters only). */
  function Fold(s: string): (r: string)
    ensures |r| == |s|
  {
    seq(|s|, i requires 0 <= i < |s| => LowerAscii(s[i]))
  }

  /** Two attribute names denote the same attribute when they agree up to case. */
  predicate SameName(a: string, b: string) {
    Fold(a) == Fold(b)
  }

  // ---------------------------------------------------------------------------
  // Queries
  // ---------------------------------------------------------------------------

  /** ContainsName: some entry carries the name. */
  function ContainsName(s: seq<Attribute>, n: string): (r: bool)
    ensures r <==> exists i :: 0 <= i < |s| && SameName(s[i].name, n)
  {
    if s == [] then false
    else if SameName(s[0].name, n) then true
    else
      var r := ContainsName(s[1..], n);
      assert forall i :: 1 <= i < |s| ==> s[i] == s[1..][i - 1];
      r
  }

  /** The indexer `list[name]`: the first entry with the name, or null. */
  function Lookup(s: seq<Attribute>, n: string): (r: Option<Attribute>)
    ensures r.None? <==> !ContainsName(s, n)
    ensures r.Some? ==> r.value in s && SameName(r.value.name, n)
  {
    if s == [] then None
    else if SameName(s[0].name, n) then Some(s[0])
    else Lookup(s[1..], n)
  }

  /** The entries that carry the name, in list order. */
  function Named(s: seq<Attribute>, n: string): (r: seq<Attribute>)
    ensures r == [] <==> !ContainsName(s, n)
    ensures |r| <= |s|
  {
    if s == [] then []
    else (if SameName(s[0].name, n) then [s[0]] else []) + Named(s[1..], n)
  }

  /** How many entries carry the name. */
  function Count(s: seq<Attribute>, n: string): nat {
    |Named(s, n)|
  }

  // ---------------------------------------------------------------------------
  // Updates
  // ---------------------------------------------------------------------------

  /** Add: append, whether or not the name is already present. */
  function Add(s: seq<Attribute>, a: Attribute): (r: seq<Attribute>)
    ensures s <= r && |r| == |s| + 1 && r[|s|] == a
  {
    s + [a]
  }

  /** RemoveAll: drop every entry with the name, keeping the others in order. */
  function RemoveAll(s: seq<Attribute>, n: string): (r: seq<Attribute>)
    ensures forall a :: a in r <==> a in s && !SameName(a.name, n)
    ensures !ContainsName(r, n)
    ensures |r| <= |s|
  {
    if s == [] then []
    else (if SameName(s[0].name, n) then [] else [s[0]]) + RemoveAll(s[1..], n)
  }

  /**
   * SetAttribute: the first entry with the attribute's name is replaced by the
   * attribute, every later entry with that name is dropped, and when there is
   * none the attribute is appended.
   */
  function SetAttribute(s: seq<Attribute>, a: Attribute): (r: seq<Attribute>)
    ensures 1 <= |r| <= |s| + 1
  {
    if s == [] then [a]
    else if SameName(s[0].name, a.name) then [a] + RemoveAll(s[1..], a.name)
    else [s[0]] + SetAttribute(s[1..], a)
  }

  // ---------------------------------------------------------------------------
  // Lemmas
  // ---------------------------------------------------------------------------

  /** The entries named `n` are exactly the entries of the list that carry the name. */
  lemma {:induction false} NamedMembers(s: seq<Attribute>, n: string)
    ensures forall a :: a in Named(s, n) <==> a in s && SameName(a.name, n)
  {
    if s != [] {
      NamedMembers(s[1..], n);
      assert s == [s[0]] + s[1..];
    }
  }

  lemma {:induction false} NamedAppend(p: seq<Attribute>, q: seq<Attribute>, n: string)
    ensures Named(p + q, n) == Named(p, n) + Named(q, n)
  {
    if p == [] {
      assert p + q == q;
    } else {
      assert (p + q)[1..] == p[1..] + q;
      NamedAppend(p[1..], q, n);
      var head := if SameName(p[0].name, n) then [p[0]] else [];
      assert Named(p + q, n) == head + (Named(p[1..], n) + Named(q, n));
      assert head + (Named(p[1..], n) + Named(q, n)) == head + Named(p[1..], n) + Named(q, n);
    }
  }

  /** The indexer yields the first of the entries that carry the name. */
  lemma {:induction false} LookupIsFirstNamed(s: seq<Attribute>, n: string)
    ensures Lookup(s, n) == if Named(s, n) == [] then None else Some(Named(s, n)[0])
  {
    if s != [] && !SameName(s[0].name, n) {
      LookupIsFirstNamed(s[1..], n);
    }
  }

  /** Names other than the removed one keep exactly their entries. */
  lemma {:induction false} RemoveAllKeepsOthers(s: seq<Attribute>, n: string, m: string)
    requires !SameName(m, n)
    ensures Named(RemoveAll(s, n), m) == Named(s, m)
  {
    if s != [] {
      RemoveAllKeepsOthers(s[1..], n, m);
      NamedAppend(if SameName(s[0].name, n) then [] else [s[0]], RemoveAll(s[1..], n), m);
    }
  }

  /** Removing a name that is absent changes nothing. */
  lemma {:induction false} RemoveAllAbsent(s: seq<Attribute>, n: string)
    requires !ContainsName(s, n)
    ensures RemoveAll(s, n) == s
  {
    if s != [] {
      assert !SameName(s[0].name, n);
      assert !ContainsName(s[1..], n) by {
        forall i | 0 <= i < |s[1..]| ensures !SameName(s[1..][i].name, n) {
          assert s[1..][i] == s[i + 1];
        }
      }
      RemoveAllAbsent(s[1..], n);
    }
  }

  /** Names that agree up to case remove the same entries. */
  lemma {:induction false} RemoveAllSameName(s: seq<Attribute>, n: string, n': string)
    requires SameName(n, n')
    ensures RemoveAll(s, n) == RemoveAll(s, n')
  {
    if s != [] {
      RemoveAllSameName(s[1..], n, n');
    }
  }

  /** After SetAttribute, the attribute is the only entry with its name. */
  lemma {:induction false} SetAttributeNamed(s: seq<Attribute>, a: Attribute)
    ensures Named(SetAttribute(s, a), a.name) == [a]
  {
    if s == [] {
      assert Named([a], a.name) == [a] + Named([], a.name);
    } else if SameName(s[0].name, a.name) {
      var rest := RemoveAll(s[1..], a.name);
      NamedAppend([a], rest, a.name);
      assert Named([a], a.name) == [a] + Named([], a.name);
    } else {
      SetAttributeNamed(s[1..], a);
      NamedAppend([s[0]], SetAttribute(s[1..], a), a.name);
      assert Named([s[0]], a.name) == [] + Named([], a.name);
    }
  }

  /** SetAttribute leaves the entries of every other name as they were. */
  lemma {:induction false} SetAttributeKeepsOthers(s: seq<Attribute>, a: Attribute, m: string)
    requires !SameName(m, a.name)
    ensures Named(SetAttribute(s, a), m) == Named(s, m)
  {
    if s == [] {
      assert Named([a], m) == [] + Named([], m);
    } else if SameName(s[0].name, a.name) {
      RemoveAllKeepsOthers(s[1..], a.name, m);
      NamedAppend([a], RemoveAll(s[1..], a.name), m);
      assert Named([a], m) == [] + Named([], m);
    } else {
      SetAttributeKeepsOthers(s[1..], a, m);
      NamedAppend([s[0]], SetAttribute(s[1..], a), m);
    }
  }

  /** Apart from the entries with the attribute's name, the list is unchanged, in order. */
  lemma {:induction false} SetAttributeRemoveAll(s: seq<Attribute>, a: Attribute)
    ensures RemoveAll(SetAttribute(s, a), a.name) == RemoveAll(s, a.name)
  {
    if s == [] {
      assert RemoveAll([a], a.name) == [] + RemoveAll([], a.name);
    } else if SameName(s[0].name, a.name) {
      var rest := RemoveAll(s[1..], a.name);
      assert ([a] + rest)[1..] == rest;
      RemoveAllAbsent(rest, a.name);
    } else {
      SetAttributeRemoveAll(s[1..], a);
      assert ([s[0]] + SetAttribute(s[1..], a))[1..] == SetAttribute(s[1..], a);
    }
  }

  /** Setting a name that is absent appends the attribute. */
  lemma {:induction false} SetAttributeAbsent(s: seq<Attribute>, a: Attribute)
    requires !ContainsName(s, a.name)
    ensures SetAttribute(s, a) == s + [a]
  {
    if s != [] {
      SetAttributeAbsent(s[1..], a);
      assert s == [s[0]] + s[1..];
    }
  }

  /**
   * When `k` is the first position carrying the attribute's name, the attribute
   * takes that position, the entries before it stay, and the later entries with
   * the name are dropped.
   */
  lemma {:induction false} SetAttributeInPlace(s: seq<Attribute>, a: Attribute, k: nat)
    requires k < |s| && SameName(s[k].name, a.name)
    requires forall i :: 0 <= i < k ==> !SameName(s[i].name, a.name)
    ensures SetAttribute(s, a) == s[..k] + [a] + RemoveAll(s[k + 1..], a.name)
  {
    if k == 0 {
      var rest := RemoveAll(s[1..], a.name);
      assert SetAttribute(s, a) == [a] + rest;
      assert s[..0] + [a] + rest == [a] + rest;
    } else {
      assert !SameName(s[0].name, a.name);
      var t := s[1..];
      assert t[k - 1] == s[k];
      assert forall i :: 0 <= i < k - 1 ==> !SameName(t[i].name, a.name) by {
        forall i | 0 <= i < k - 1 ensures !SameName(t[i].name, a.name) {
          assert t[i] == s[i + 1];
        }
      }
      SetAttributeInPlace(t, a, k - 1);
      assert t[k..] == s[k + 1..];
      assert SetAttribute(s, a) == [s[0]] + SetAttribute(t, a);
      ConsSlice(s, k, a, RemoveAll(s[k + 1..], a.name));
    }
  }

  /** Re-attaching the head to a prefix of the tail gives the prefix of the whole. */
  lemma ConsSlice<T>(s: seq<T>, k: nat, x: T, rest: seq<T>)
    requires 0 < k <= |s|
    ensures [s[0]] + (s[1..][..k - 1] + [x] + rest) == s[..k] + [x] + rest
  {
    assert s[..k] == [s[0]] + s[1..][..k - 1];
  }

  /** Setting the same name twice is the same as setting it once to the latest value. */
  lemma {:induction false} SetAttributeTwice(s: seq<Attribute>, a: Attribute, b: Attribute)
    requires SameName(a.name, b.name)
    ensures SetAttribute(SetAttribute(s, a), b) == SetAttribute(s, b)
  {
    if s == [] {
      assert SetAttribute([a], b) == [b] + RemoveAll([], b.name);
    } else if SameName(s[0].name, a.name) {
      var rest := RemoveAll(s[1..], a.name);
      assert ([a] + rest)[1..] == rest;
      RemoveAllAbsent(rest, b.name);
      RemoveAllSameName(s[1..], a.name, b.name);
    } else {
      SetAttributeTwice(s[1..], a, b);
      assert ([s[0]] + SetAttribute(s[1..], a))[1..] == SetAttribute(s[1..], a);
    }
  }

  /** Add gives the name one more entry, at the end; duplicates accumulate. */
  lemma AddNamed(s: seq<Attribute>, a: Attribute)
    ensures Named(Add(s, a), a.name) == Named(s, a.name) + [a]
    ensures Count(Add(s, a), a.name) == Count(s, a.name) + 1
  {
    NamedAppend(s, [a], a.name);
    assert Named([a], a.name) == [a] + Named([], a.name);
  }

  /** Add leaves the entries of every other name as they were. */
  lemma AddKeepsOthers(s: seq<Attribute>, a: Attribute, m: string)
    requires !SameName(m, a.name)
    ensures Named(Add(s, a), m) == Named(s, m)
  {
    NamedAppend(s, [a], m);
    assert Named([a], m) == [] + Named([], m);
  }

}
