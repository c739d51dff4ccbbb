/**
 * The configuration actions that the component extension methods hand to
 * `OptionBase.Config`, one per extension method. `Step` says what an action
 * does to a configuration's state; `Run` performs it on a `Config` object, as
 * the extension's closure does.
 */
module ConfigActions {
  import opened Nullable
  import opened AttributeLists
  import opened Configs
  import UiConst
  import opened Enums

  datatype ConfigAction =
    | AddAttribute(attrName: string, attrValue: Option<string>)   // Attribute(name, value)
    | AddValuelessAttribute(attrName: string)                     // Attribute(value)
    | AddCssClass(cssClass: Option<string>)                       // Class
    | AddStyle(style: Option<string>)                             // Style
    | AddId(id: Option<string>)                                   // Id
    | SetName(newName: Option<string>)                            // Name
    | SetText(text: Option<string>)                               // Text
    | SetPlaceholder(text: Option<string>)                        // Placeholder
    | SetValue(newValue: Option<string>)                          // Value
    | SetDisabled(disabled: bool)                                 // Disable
    | SetFontAwesome(faIcon: FontAwesomeIcon)                     // FontAwesome
    | SetMaterial(matIcon: MaterialIcon)                          // Material
    | SetSize(size: IconSize)                                     // Size
    | SetSpin(isSpin: bool)                                       // Spin
    | SetRotate(rotate: RotateType)                               // Rotate
    | SetChild(childIcon: FontAwesomeIcon, childClass: Option<string>) // Child
  {
    /** The actions of the icon extensions. */
    predicate IsIconSetter() {
      SetFontAwesome? || SetMaterial? || SetSize? || SetSpin? || SetRotate? || SetChild?
    }
  }

  /** A string argument stored as an attribute value object (null stays null). */
  function StringValue(s: Option<string>): Option<Value> {
    match s
    case None => None
    case Some(t) => Some(Text(t))
  }

  /** The configuration state after the action. */
  function Step(s: ConfigState, a: ConfigAction): (r: ConfigState)
    ensures !a.AddCssClass? ==> r.classList == s.classList
    ensures WellFormedClassList(s.classList) ==> WellFormedClassList(r.classList)
  {
    match a
    case AddAttribute(n, v) => s.(otherAttributes := Add(s.otherAttributes, Attribute(n, StringValue(v))))
    case AddValuelessAttribute(n) => s.(otherAttributes := Add(s.otherAttributes, Attribute(n, None)))
    case AddCssClass(c) => s.(classList := WithClass(s.classList, c))
    case AddStyle(st) => s.(otherAttributes := Add(s.otherAttributes, Attribute(UiConst.Style, StringValue(st))))
    case AddId(id) => s.(attributes := Add(s.attributes, Attribute(UiConst.Id, StringValue(id))))
    case SetName(n) => s.(name := n)
    case SetText(t) => s.(attributes := SetAttribute(s.attributes, Attribute(UiConst.Text, StringValue(t))))
    case SetPlaceholder(t) => s.(placeholder := t)
    case SetValue(v) => s.(value := v)
    case SetDisabled(d) =>
      if d then s.(attributes := Add(s.attributes, Attribute(UiConst.Disabled, Some(Text("disabled")))))
      else s.(attributes := RemoveAll(s.attributes, UiConst.Disabled))
    case SetFontAwesome(i) =>
      s.(attributes := SetAttribute(s.attributes, Attribute(UiConst.FontAwesomeIcon, Some(Text(i.ToString())))))
    case SetMaterial(i) =>
      s.(attributes := SetAttribute(s.attributes, Attribute(UiConst.MaterialIcon, Some(Text(i.ToString())))))
    case SetSize(z) =>
      s.(attributes := SetAttribute(s.attributes, Attribute(UiConst.Size, Some(Text(z.ToString())))))
    case SetSpin(b) =>
      s.(attributes := SetAttribute(s.attributes, Attribute(UiConst.Spin, Some(Flag(b)))))
    case SetRotate(r) =>
      s.(attributes := SetAttribute(s.attributes, Attribute(UiConst.Rotate, Some(Text(r.ToString())))))
    case SetChild(i, c) =>
      var withChild := SetAttribute(s.attributes, Attribute(UiConst.Child, Some(Text(i.ToString()))));
      if IsNullOrWhiteSpace(c) then s.(attributes := withChild)
      else s.(attributes := SetAttribute(withChild, Attribute(UiConst.ChildClass, StringValue(c))))
  }

  /** The body of the extension's closure, run against the live configuration. */
  method Run(config: Config, a: ConfigAction)
    requires config.Valid()
    modifies config
    ensures config.Valid()
    ensures config.State() == Step(old(config.State()), a)
  {
    if a.IsIconSetter() {
      RunIcon(config, a);
      return;
    }
    match a
    case AddAttribute(n, v) =>
      config.otherAttributes := Add(config.otherAttributes, Attribute(n, StringValue(v)));
    case AddValuelessAttribute(n) =>
      config.otherAttributes := Add(config.otherAttributes, Attribute(n, None));
    case AddCssClass(c) =>
      config.AddClass(c);
    case AddStyle(st) =>
      config.otherAttributes := Add(config.otherAttributes, Attribute(UiConst.Style, StringValue(st)));
    case AddId(id) =>
      config.attributes := Add(config.attributes, Attribute(UiConst.Id, StringValue(id)));
    case SetName(n) =>
      config.name := n;
    case SetText(t) =>
      config.SetAttribute(UiConst.Text, StringValue(t));
    case SetPlaceholder(t) =>
      config.placeholder := t;
    case SetValue(v) =>
      config.value := v;
    case SetDisabled(d) =>
      if d {
        config.attributes := Add(config.attributes, Attribute(UiConst.Disabled, Some(Text("disabled"))));
      } else {
        config.Remove(UiConst.Disabled);
      }
  }

  /** The bodies of the icon extensions' closures. */
  method RunIcon(config: Config, a: ConfigAction)
    requires config.Valid() && a.IsIconSetter()
    modifies config
    ensures config.Valid()
    ensures config.State() == Step(old(config.State()), a)
  {
    match a
    case SetFontAwesome(i) =>
      config.SetAttribute(UiConst.FontAwesomeIcon, Some(Text(i.ToString())));
    case SetMaterial(i) =>
      config.SetAttribute(UiConst.MaterialIcon, Some(Text(i.ToString())));
    case SetSize(z) =>
      config.SetAttribute(UiConst.Size, Some(Text(z.ToString())));
    case SetSpin(b) =>
      config.SetAttribute(UiConst.Spin, Some(Flag(b)));
    case SetRotate(r) =>
      config.SetAttribute(UiConst.Rotate, Some(Text(r.ToString())));
    case SetChild(i, c) =>
      RunChild(config, i, c);
  }

  /** The body of the child-icon extension's closure: the child, then its class unless that is blank. */
  method RunChild(config: Config, i: FontAwesomeIcon, c: Option<string>)
    requires config.Valid()
    modifies config
    ensures config.Valid()
    ensures config.State() == Step(old(config.State()), SetChild(i, c))
  {
    ghost var before := config.State();
    ghost var child := Attribute(UiConst.Child, Some(Text(i.ToString())));
    ghost var childClass := Attribute(UiConst.ChildClass, StringValue(c));
    ChildStep(before, i, c);
    config.SetAttribute(UiConst.Child, Some(Text(i.ToString())));
    assert config.State() == before.(attributes := SetAttribute(before.attributes, child));
    if !IsNullOrWhiteSpace(c) {
      config.SetAttribute(UiConst.ChildClass, StringValue(c));
      assert config.State() == before.(attributes := SetAttribute(SetAttribute(before.attributes, child), childClass));
    }
  }

  /** What the child action does, with its two settings spelled out. */
  lemma ChildStep(s: ConfigState, i: FontAwesomeIcon, c: Option<string>)
    ensures var withChild := SetAttribute(s.attributes, Attribute(UiConst.Child, Some(Text(i.ToString()))));
      Step(s, SetChild(i, c)) ==
        if IsNullOrWhiteSpace(c) then s.(attributes := withChild)
        else s.(attributes := SetAttribute(withChild, Attribute(UiConst.ChildClass, StringValue(c))))
  {
  }

  // ---------------------------------------------------------------------------
  // What each extension does
  // ---------------------------------------------------------------------------

  /** Attribute(name, value) appends one pass-through entry; duplicates accumulate. */
  lemma AttributeAppends(s: ConfigState, n: string, v: Option<string>)
    ensures var r := Step(s, AddAttribute(n, v));
      && Named(r.otherAttributes, n) == Named(s.otherAttributes, n) + [Attribute(n, StringValue(v))]
      && Count(r.otherAttributes, n) == Count(s.otherAttributes, n) + 1
      && r.attributes == s.attributes && r.classList == s.classList
  {
    AddNamed(s.otherAttributes, Attribute(n, StringValue(v)));
  }

  /** Attribute(value) appends a pass-through entry named by the value, with no value. */
  lemma ValuelessAttributeAppends(s: ConfigState, n: string)
    ensures var r := Step(s, AddValuelessAttribute(n));
      && Named(r.otherAttributes, n) == Named(s.otherAttributes, n) + [Attribute(n, None)]
      && r.attributes == s.attributes && r.classList == s.classList
  {
    AddNamed(s.otherAttributes, Attribute(n, None));
  }

  /** Class(c) is AddClass(c): adding the same token twice equals adding it once. */
  lemma ClassIdempotent(s: ConfigState, c: Option<string>)
    ensures Step(s, AddCssClass(c)).classList == WithClass(s.classList, c)
    ensures Step(Step(s, AddCssClass(c)), AddCssClass(c)) == Step(s, AddCssClass(c))
  {
    WithClassIdempotent(s.classList, c);
  }

  /** Style(s) appends a style entry to the pass-through attributes, not to the component's own. */
  lemma StyleAppends(s: ConfigState, st: Option<string>)
    ensures var r := Step(s, AddStyle(st));
      && Named(r.otherAttributes, UiConst.Style) == Named(s.otherAttributes, UiConst.Style) + [Attribute(UiConst.Style, StringValue(st))]
      && r.attributes == s.attributes
  {
    var a := Attribute(UiConst.Style, StringValue(st));
    assert Step(s, AddStyle(st)) == s.(otherAttributes := Add(s.otherAttributes, a));
    AddNamed(s.otherAttributes, a);
  }

  /** Id uses Add, so two calls leave two more id entries, in call order. */
  lemma IdTwiceAccumulates(s: ConfigState, id1: Option<string>, id2: Option<string>)
    ensures var r := Step(Step(s, AddId(id1)), AddId(id2));
      && Named(r.attributes, UiConst.Id)
         == Named(s.attributes, UiConst.Id) + [Attribute(UiConst.Id, StringValue(id1)), Attribute(UiConst.Id, StringValue(id2))]
      && Count(r.attributes, UiConst.Id) == Count(s.attributes, UiConst.Id) + 2
  {
    var a1 := Attribute(UiConst.Id, StringValue(id1));
    var a2 := Attribute(UiConst.Id, StringValue(id2));
    var once := Add(s.attributes, a1);
    var twice := Add(once, a2);
    var first := Step(s, AddId(id1));
    assert first.attributes == once;
    assert Step(first, AddId(id2)).attributes == twice;
    AddNamed(s.attributes, a1);
    AddNamed(once, a2);
    assert Named(twice, UiConst.Id) == Named(s.attributes, UiConst.Id) + [a1, a2];
  }

  /** Text uses SetAttribute: after two calls one text entry remains, holding the latest value. */
  lemma TextLastWins(s: ConfigState, t1: Option<string>, t2: Option<string>)
    ensures var r := Step(Step(s, SetText(t1)), SetText(t2));
      && r == Step(s, SetText(t2))
      && Named(r.attributes, UiConst.Text) == [Attribute(UiConst.Text, StringValue(t2))]
      && RemoveAll(r.attributes, UiConst.Text) == RemoveAll(s.attributes, UiConst.Text)
  {
    var a1 := Attribute(UiConst.Text, StringValue(t1));
    var a2 := Attribute(UiConst.Text, StringValue(t2));
    var once := Step(s, SetText(t1));
    assert once == s.(attributes := SetAttribute(s.attributes, a1));
    assert Step(once, SetText(t2)) == s.(attributes := SetAttribute(once.attributes, a2));
    assert Step(s, SetText(t2)) == s.(attributes := SetAttribute(s.attributes, a2));
    SetAttributeTwice(s.attributes, a1, a2);
    SetAttributeNamed(s.attributes, a2);
    SetAttributeRemoveAll(s.attributes, a2);
  }

  /** Name overwrites one field: the last call wins and nothing else changes. */
  lemma NameLastWins(s: ConfigState, x: Option<string>, y: Option<string>)
    ensures Step(Step(s, SetName(x)), SetName(y)) == s.(name := y)
  {
  }

  /** Placeholder overwrites one field: the last call wins and nothing else changes. */
  lemma PlaceholderLastWins(s: ConfigState, x: Option<string>, y: Option<string>)
    ensures Step(Step(s, SetPlaceholder(x)), SetPlaceholder(y)) == s.(placeholder := y)
  {
  }

  /** Value overwrites one field: the last call wins and nothing else changes. */
  lemma ValueLastWins(s: ConfigState, x: Option<string>, y: Option<string>)
    ensures Step(Step(s, SetValue(x)), SetValue(y)) == s.(value := y)
  {
  }

  /**
   * Disable(true) appends disabled="disabled"; Disable(false) removes every
   * disabled entry, is a no-op when there is none, and keeps the other names.
   */
  lemma DisableEffect(s: ConfigState, m: string)
    ensures Named(Step(s, SetDisabled(true)).attributes, UiConst.Disabled)
            == Named(s.attributes, UiConst.Disabled) + [Attribute(UiConst.Disabled, Some(Text("disabled")))]
    ensures !ContainsName(Step(s, SetDisabled(false)).attributes, UiConst.Disabled)
    ensures !ContainsName(s.attributes, UiConst.Disabled) ==> Step(s, SetDisabled(false)) == s
    ensures !SameName(m, UiConst.Disabled) ==> Named(Step(s, SetDisabled(false)).attributes, m) == Named(s.attributes, m)
  {
    var entry := Attribute(UiConst.Disabled, Some(Text("disabled")));
    assert Step(s, SetDisabled(true)).attributes == Add(s.attributes, entry);
    assert Step(s, SetDisabled(false)) == s.(attributes := RemoveAll(s.attributes, UiConst.Disabled));
    AddNamed(s.attributes, entry);
    if !ContainsName(s.attributes, UiConst.Disabled) {
      RemoveAllAbsent(s.attributes, UiConst.Disabled);
    }
    if !SameName(m, UiConst.Disabled) {
      RemoveAllKeepsOthers(s.attributes, UiConst.Disabled, m);
    }
  }

  /** FontAwesome stores the icon's name under its key, replacing any earlier value. */
  lemma FontAwesomeReplaces(s: ConfigState, i: FontAwesomeIcon)
    ensures var r := Step(s, SetFontAwesome(i));
      && Named(r.attributes, UiConst.FontAwesomeIcon) == [Attribute(UiConst.FontAwesomeIcon, Some(Text(i.ToString())))]
      && RemoveAll(r.attributes, UiConst.FontAwesomeIcon) == RemoveAll(s.attributes, UiConst.FontAwesomeIcon)
  {
    var a := Attribute(UiConst.FontAwesomeIcon, Some(Text(i.ToString())));
    assert Step(s, SetFontAwesome(i)).attributes == SetAttribute(s.attributes, a);
    SetAttributeNamed(s.attributes, a);
    SetAttributeRemoveAll(s.attributes, a);
  }

  /** Material stores the icon's name under its key, replacing any earlier value. */
  lemma MaterialReplaces(s: ConfigState, i: MaterialIcon)
    ensures var r := Step(s, SetMaterial(i));
      && Named(r.attributes, UiConst.MaterialIcon) == [Attribute(UiConst.MaterialIcon, Some(Text(i.ToString())))]
      && RemoveAll(r.attributes, UiConst.MaterialIcon) == RemoveAll(s.attributes, UiConst.MaterialIcon)
  {
    var a := Attribute(UiConst.MaterialIcon, Some(Text(i.ToString())));
    assert Step(s, SetMaterial(i)).attributes == SetAttribute(s.attributes, a);
    SetAttributeNamed(s.attributes, a);
    SetAttributeRemoveAll(s.attributes, a);
  }

  /** FontAwesome and Material write different keys: after both, both icons are present. */
  lemma FontAwesomeAndMaterialCoexist(s: ConfigState, fa: FontAwesomeIcon, mat: MaterialIcon)
    ensures var r := Step(Step(s, SetFontAwesome(fa)), SetMaterial(mat));
      && Lookup(r.attributes, UiConst.FontAwesomeIcon) == Some(Attribute(UiConst.FontAwesomeIcon, Some(Text(fa.ToString()))))
      && Lookup(r.attributes, UiConst.MaterialIcon) == Some(Attribute(UiConst.MaterialIcon, Some(Text(mat.ToString()))))
  {
    var once := Step(s, SetFontAwesome(fa));
    var twice := Step(once, SetMaterial(mat)).attributes;
    FontAwesomeReplaces(s, fa);
    FontAwesomeAndMaterialIndependent(once, fa, mat);
    MaterialReplaces(once, mat);
    LookupIsFirstNamed(twice, UiConst.FontAwesomeIcon);
    LookupIsFirstNamed(twice, UiConst.MaterialIcon);
  }

  /** Size keeps one entry under its key, holding the latest token. */
  lemma SizeLastWins(s: ConfigState, z1: IconSize, z2: IconSize)
    ensures Step(Step(s, SetSize(z1)), SetSize(z2)) == Step(s, SetSize(z2))
    ensures Named(Step(s, SetSize(z2)).attributes, UiConst.Size) == [Attribute(UiConst.Size, Some(Text(z2.ToString())))]
  {
    var a1, a2 := Attribute(UiConst.Size, Some(Text(z1.ToString()))), Attribute(UiConst.Size, Some(Text(z2.ToString())));
    var once := Step(s, SetSize(z1));
    assert once == s.(attributes := SetAttribute(s.attributes, a1));
    assert Step(once, SetSize(z2)) == s.(attributes := SetAttribute(once.attributes, a2));
    assert Step(s, SetSize(z2)) == s.(attributes := SetAttribute(s.attributes, a2));
    SetAttributeTwice(s.attributes, a1, a2);
    SetAttributeNamed(s.attributes, a2);
  }

  /** Rotate keeps one entry under its key, holding the latest token. */
  lemma RotateLastWins(s: ConfigState, r1: RotateType, r2: RotateType)
    ensures Step(Step(s, SetRotate(r1)), SetRotate(r2)) == Step(s, SetRotate(r2))
    ensures Named(Step(s, SetRotate(r2)).attributes, UiConst.Rotate) == [Attribute(UiConst.Rotate, Some(Text(r2.ToString())))]
  {
    var b1, b2 := Attribute(UiConst.Rotate, Some(Text(r1.ToString()))), Attribute(UiConst.Rotate, Some(Text(r2.ToString())));
    var once := Step(s, SetRotate(r1));
    assert once == s.(attributes := SetAttribute(s.attributes, b1));
    assert Step(once, SetRotate(r2)) == s.(attributes := SetAttribute(once.attributes, b2));
    assert Step(s, SetRotate(r2)) == s.(attributes := SetAttribute(s.attributes, b2));
    SetAttributeTwice(s.attributes, b1, b2);
    SetAttributeNamed(s.attributes, b2);
  }

  /** Spin(false) still writes the spin attribute, with the value false, rather than removing it. */
  lemma SpinFalseIsWritten(s: ConfigState)
    ensures Lookup(Step(s, SetSpin(false)).attributes, UiConst.Spin) == Some(Attribute(UiConst.Spin, Some(Flag(false))))
    ensures ContainsName(Step(s, SetSpin(false)).attributes, UiConst.Spin)
  {
    var a := Attribute(UiConst.Spin, Some(Flag(false)));
    var r := Step(s, SetSpin(false));
    assert r.attributes == SetAttribute(s.attributes, a);
    SetAttributeNamed(s.attributes, a);
    LookupIsFirstNamed(r.attributes, UiConst.Spin);
  }

  /**
   * Child always sets the child icon; it sets the child class only when the
   * class is not blank, and a blank class leaves any earlier child class as it was.
   */
  lemma ChildEffect(s: ConfigState, i: FontAwesomeIcon, c: Option<string>)
    ensures var r := Step(s, SetChild(i, c));
      && Named(r.attributes, UiConst.Child) == [Attribute(UiConst.Child, Some(Text(i.ToString())))]
      && (IsNullOrWhiteSpace(c) ==> Named(r.attributes, UiConst.ChildClass) == Named(s.attributes, UiConst.ChildClass))
      && (!IsNullOrWhiteSpace(c) ==> Named(r.attributes, UiConst.ChildClass) == [Attribute(UiConst.ChildClass, StringValue(c))])
  {
    var a := Attribute(UiConst.Child, Some(Text(i.ToString())));
    var withChild := SetAttribute(s.attributes, a);
    ChildStep(s, i, c);
    UiConst.IconKeysDistinct();
    SetAttributeNamed(s.attributes, a);
    SetAttributeKeepsOthers(s.attributes, a, UiConst.ChildClass);
    if IsNullOrWhiteSpace(c) {
      assert Step(s, SetChild(i, c)).attributes == withChild;
    } else {
      var b := Attribute(UiConst.ChildClass, StringValue(c));
      assert Step(s, SetChild(i, c)).attributes == SetAttribute(withChild, b);
      SetAttributeNamed(withChild, b);
      SetAttributeKeepsOthers(withChild, b, UiConst.Child);
    }
  }

  /** The Font Awesome and the Material setters leave each other's entries alone, whichever runs. */
  lemma FontAwesomeAndMaterialIndependent(s: ConfigState, fa: FontAwesomeIcon, mat: MaterialIcon)
    ensures Named(Step(s, SetMaterial(mat)).attributes, UiConst.FontAwesomeIcon) == Named(s.attributes, UiConst.FontAwesomeIcon)
    ensures Named(Step(s, SetFontAwesome(fa)).attributes, UiConst.MaterialIcon) == Named(s.attributes, UiConst.MaterialIcon)
  {
    var a := Attribute(UiConst.FontAwesomeIcon, Some(Text(fa.ToString())));
    var b := Attribute(UiConst.MaterialIcon, Some(Text(mat.ToString())));
    assert Step(s, SetMaterial(mat)).attributes == SetAttribute(s.attributes, b);
    assert Step(s, SetFontAwesome(fa)).attributes == SetAttribute(s.attributes, a);
    UiConst.IconKeysDistinct();
    SetAttributeKeepsOthers(s.attributes, b, UiConst.FontAwesomeIcon);
    SetAttributeKeepsOthers(s.attributes, a, UiConst.MaterialIcon);
  }

  /** The icon setters change the component's own attributes and nothing else. */
  lemma IconSettersTouchOnlyAttributes(s: ConfigState, a: ConfigAction)
    requires a.IsIconSetter()
    ensures Step(s, a) == s.(attributes := Step(s, a).attributes)
  {
  }

}
