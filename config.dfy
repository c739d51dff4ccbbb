/**
 * The configuration of one component: two attribute lists (`attributes`, the
 * component's own, and `otherAttributes`, free-form ones to pass through), a
 * de-duplicated CSS class list kept in insertion order, and scalar fields
 * that other component kinds read.
 */
module Configs {
  import opened Nullable
  import opened AttributeLists

  // ---------------------------------------------------------------------------
  // Class tokens
  // ---------------------------------------------------------------------------

  /** `char.IsWhiteSpace`: the Unicode space, line and paragraph separators, tab through carriage return, and next-line. */
  predicate IsWhiteSpace(c: char) {
    || ('\t' <= c <= '\r')
    || c == ' ' || c == '\U{85}' || c == '\U{A0}' || c == '\U{1680}'
    || ('\U{2000}' <= c <= '\U{200A}')
    || c == '\U{2028}' || c == '\U{2029}' || c == '\U{202F}' || c == '\U{205F}' || c == '\U{3000}'
  }

  /** `string.IsNullOrWhiteSpace`: null, empty, or white space throughout. */
  function IsNullOrWhiteSpace(s: Option<string>): (r: bool)
    ensures s.None? || s == Some("") ==> r
    ensures r && s.Some? ==> forall c :: c in s.value ==> IsWhiteSpace(c)
    ensures s.Some? && (exists c :: c in s.value && !IsWhiteSpace(c)) ==> !r
  {
    s.None? || forall i :: 0 <= i < |s.value| ==> IsWhiteSpace(s.value[i])
  }

  /** The class list holds no blank token and no token twice. */
  predicate WellFormedClassList(l: seq<string>) {
    && (forall i :: 0 <= i < |l| ==> !IsNullOrWhiteSpace(Some(l[i])))
    && (forall i, j :: 0 <= i < j < |l| ==> l[i] != l[j])
  }

  /** The class list after `AddClass(c)`. */
  function WithClass(l: seq<string>, c: Option<string>): (r: seq<string>)
    ensures l <= r && |r| <= |l| + 1
    ensures forall t :: t in r <==> t in l || (c == Some(t) && !IsNullOrWhiteSpace(c))
    ensures IsNullOrWhiteSpace(c) ==> r == l
    ensures c.Some? && c.value in l ==> r == l
    ensures WellFormedClassList(l) ==> WellFormedClassList(r)
  {
    if IsNullOrWhiteSpace(c) then l
    else if c.value in l then l
    else l + [c.value]
  }

  /** Adding a class token a second time changes nothing. */
  lemma WithClassIdempotent(l: seq<string>, c: Option<string>)
    ensures WithClass(WithClass(l, c), c) == WithClass(l, c)
  {
  }

  // ---------------------------------------------------------------------------
  // The configuration
  // ---------------------------------------------------------------------------

  /** The whole observable state of a configuration, as a value. */
  datatype ConfigState = ConfigState(
    attributes: seq<Attribute>,
    otherAttributes: seq<Attribute>,
    classList: seq<string>,
    name: Option<string>,
    value: Option<string>,
    typeName: Option<string>,
    placeholder: Option<string>,
    required: bool,
    requiredMessage: Option<string>,
    minLength: int,
    minLengthMessage: Option<string>,
    model: Option<string>)

  /** A configuration with no attributes, no classes and every scalar at its default. */
  function EmptyState(): ConfigState {
    ConfigState([], [], [], None, None, None, None, false, None, 0, None, None)
  }

  /** The string form of a stored value; null reads as the empty string. */
  function SafeString(v: Option<Value>): string {
    match v
    case None => ""
    case Some(Text(t)) => t
    case Some(Flag(b)) => if b then "True" else "False"
  }

  /** The string value of the first entry with the name, or "" when there is none. */
  function ValueOf(attributes: seq<Attribute>, n: string): (r: string)
    ensures !ContainsName(attributes, n) ==> r == ""
    ensures ContainsName(attributes, n) ==> r == SafeString(Named(attributes, n)[0].value)
  {
    LookupIsFirstNamed(attributes, n);
    match Lookup(attributes, n)
    case None => ""
    case Some(a) => SafeString(a.value)
  }

  /** After setting `n` to `v`, exactly one entry carries the name and reading it yields `v`. */
  lemma SetThenGet(attributes: seq<Attribute>, n: string, v: Option<Value>)
    ensures var r := AttributeLists.SetAttribute(attributes, Attribute(n, v));
      && ContainsName(r, n) && Count(r, n) == 1 && ValueOf(r, n) == SafeString(v)
  {
    SetAttributeNamed(attributes, Attribute(n, v));
  }

  class Config {
    var attributes: seq<Attribute>
    var otherAttributes: seq<Attribute>
    var classList: seq<string>
    var name: Option<string>
    var value: Option<string>
    var typeName: Option<string>
    var placeholder: Option<string>
    var required: bool
    var requiredMessage: Option<string>
    var minLength: int
    var minLengthMessage: Option<string>
    var model: Option<string>

    ghost predicate Valid()
      reads this
    {
      WellFormedClassList(classList)
    }

    function State(): ConfigState
      reads this
    {
      ConfigState(attributes, otherAttributes, classList, name, value, typeName,
                  placeholder, required, requiredMessage, minLength, minLengthMessage, model)
    }

    /** A configuration over two new, empty attribute lists. */
    constructor ()
      ensures Valid() && State() == EmptyState()
      ensures attributes == [] && otherAttributes == [] && classList == []
    {
      attributes, otherAttributes, classList := [], [], [];
      name, value, typeName, placeholder := None, None, None, None;
      required, requiredMessage := false, None;
      minLength, minLengthMessage := 0, None;
      model := None;
    }

    /** A configuration over the given attribute lists; the class list starts empty. */
    constructor WithLists(attributes: seq<Attribute>, otherAttributes: seq<Attribute>)
      ensures Valid() && classList == []
      ensures State() == EmptyState().(attributes := attributes, otherAttributes := otherAttributes)
    {
      this.attributes, this.otherAttributes, classList := attributes, otherAttributes, [];
      name, value, typeName, placeholder := None, None, None, None;
      required, requiredMessage := false, None;
      minLength, minLengthMessage := 0, None;
      model := None;
    }

    /** Whether the component's own attributes (not the pass-through ones) hold the name. */
    function Contains(n: string): (r: bool)
      reads this
      ensures r <==> exists i :: 0 <= i < |attributes| && SameName(attributes[i].name, n)
      ensures r <==> Count(attributes, n) > 0
    {
      ContainsName(attributes, n)
    }

    /** The string value of the first attribute with the name, or "" when there is none. */
    function GetValue(n: string): (r: string)
      reads this
      ensures r == ValueOf(attributes, n)
    {
      ValueOf(attributes, n)
    }

    /** Sets the attribute, replacing every earlier entry with that name. */
    method SetAttribute(n: string, v: Option<Value>)
      modifies this
      ensures State() == old(State()).(attributes := AttributeLists.SetAttribute(old(attributes), Attribute(n, v)))
      ensures Contains(n)
    {
      ghost var before := attributes;
      attributes := AttributeLists.SetAttribute(attributes, Attribute(n, v));
      SetThenGet(before, n, v);
    }

    /** Removes every attribute with the name; a no-op when there is none. */
    method Remove(n: string)
      modifies this
      ensures State() == old(State()).(attributes := RemoveAll(old(attributes), n))
      ensures !Contains(n)
      ensures !old(Contains(n)) ==> attributes == old(attributes)
      ensures forall m :: !SameName(m, n) ==> Named(attributes, m) == Named(old(attributes), m)
    {
      ghost var before := attributes;
      attributes := RemoveAll(attributes, n);
      if !ContainsName(before, n) {
        RemoveAllAbsent(before, n);
      }
      forall m | !SameName(m, n) ensures Named(attributes, m) == Named(before, m) {
        RemoveAllKeepsOthers(before, n, m);
      }
    }

    /** Appends the class token unless it is null, blank or already present. */
    method AddClass(c: Option<string>)
      requires Valid()
      modifies this
      ensures Valid()
      ensures State() == old(State()).(classList := WithClass(old(classList), c))
    {
      if IsNullOrWhiteSpace(c) {
        return;
      }
      if c.value in classList {
        return;
      }
      classList := classList + [c.value];
    }

    /** The class list, in insertion order. */
    function GetClassList(): (r: seq<string>)
      reads this
      requires Valid()
      ensures WellFormedClassList(r)
      ensures r == classList
    {
      classList
    }
  }

}
