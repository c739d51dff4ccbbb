/**
 * The fluent extension methods of components. Each hands one configuration
 * action to the component's `Config` entry point and returns the component;
 * what the action does is `ConfigActions.Step`, and the lemmas beside it.
 */
module Extensions {
  import opened Nullable
  import opened Enums
  import opened ConfigActions
  import opened Components

  /** Adds a pass-through attribute with a value. */
  method Attribute(component: OptionBase, name: string, value: Option<string>) returns (r: OptionBase)
    requires component.Valid()
    modifies component, component.config
    ensures r == component && Applied(component, AddAttribute(name, value))
  {
    var _ := component.Config(Some(AddAttribute(name, value)));
    r := component;
  }

  /** Adds a pass-through attribute named by the argument, with no value. */
  method ValuelessAttribute(component: OptionBase, value: string) returns (r: OptionBase)
    requires component.Valid()
    modifies component, component.config
    ensures r == component && Applied(component, AddValuelessAttribute(value))
  {
    var _ := component.Config(Some(AddValuelessAttribute(value)));
    r := component;
  }

  /** Adds a CSS class. */
  method Class(component: OptionBase, cssClass: Option<string>) returns (r: OptionBase)
    requires component.Valid()
    modifies component, component.config
    ensures r == component && Applied(component, AddCssClass(cssClass))
  {
    var _ := component.Config(Some(AddCssClass(cssClass)));
    r := component;
  }

  /** Adds a style attribute to the pass-through attributes. */
  method Style(component: OptionBase, style: Option<string>) returns (r: OptionBase)
    requires component.Valid()
    modifies component, component.config
    ensures r == component && Applied(component, AddStyle(style))
  {
    var _ := component.Config(Some(AddStyle(style)));
    r := component;
  }

  /** Adds an id attribute. */
  method Id(component: OptionBase, id: Option<string>) returns (r: OptionBase)
    requires component.Valid()
    modifies component, component.config
    ensures r == component && Applied(component, AddId(id))
  {
    var _ := component.Config(Some(AddId(id)));
    r := component;
  }

  /** Sets the name field. */
  method Name(component: OptionBase, name: Option<string>) returns (r: OptionBase)
    requires component.Valid()
    modifies component, component.config
    ensures r == component && Applied(component, SetName(name))
  {
    var _ := component.Config(Some(SetName(name)));
    r := component;
  }

  /** Sets the text attribute. */
  method Text(component: OptionBase, text: Option<string>) returns (r: OptionBase)
    requires component.Valid()
    modifies component, component.config
    ensures r == component && Applied(component, SetText(text))
  {
    var _ := component.Config(Some(SetText(text)));
    r := component;
  }

  /** Sets the placeholder field. */
  method Placeholder(component: OptionBase, text: Option<string>) returns (r: OptionBase)
    requires component.Valid()
    modifies component, component.config
    ensures r == component && Applied(component, SetPlaceholder(text))
  {
    var _ := component.Config(Some(SetPlaceholder(text)));
    r := component;
  }

  /** Sets the value field. */
  method Value(component: OptionBase, value: Option<string>) returns (r: OptionBase)
    requires component.Valid()
    modifies component, component.config
    ensures r == component && Applied(component, SetValue(value))
  {
    var _ := component.Config(Some(SetValue(value)));
    r := component;
  }

  /** Disables (by default) or re-enables the component. */
  method Disable(component: OptionBase, disabled: bool := true) returns (r: OptionBase)
    requires component.Valid()
    modifies component, component.config
    ensures r == component && Applied(component, SetDisabled(disabled))
  {
    var _ := component.Config(Some(SetDisabled(disabled)));
    r := component;
  }

  /** Sets the Font Awesome icon. */
  method FontAwesome(component: OptionBase, icon: FontAwesomeIcon) returns (r: OptionBase)
    requires component.Valid()
    modifies component, component.config
    ensures r == component && Applied(component, SetFontAwesome(icon))
  {
    var _ := component.Config(Some(SetFontAwesome(icon)));
    r := component;
  }

  /** Sets the Material icon. */
  method Material(component: OptionBase, icon: MaterialIcon) returns (r: OptionBase)
    requires component.Valid()
    modifies component, component.config
    ensures r == component && Applied(component, SetMaterial(icon))
  {
    var _ := component.Config(Some(SetMaterial(icon)));
    r := component;
  }

  /** Sets the icon size. */
  method Size(component: OptionBase, size: IconSize) returns (r: OptionBase)
    requires component.Valid()
    modifies component, component.config
    ensures r == component && Applied(component, SetSize(size))
  {
    var _ := component.Config(Some(SetSize(size)));
    r := component;
  }

  /** Makes the icon spin (by default) or records that it does not. */
  method Spin(component: OptionBase, isSpin: bool := true) returns (r: OptionBase)
    requires component.Valid()
    modifies component, component.config
    ensures r == component && Applied(component, SetSpin(isSpin))
  {
    var _ := component.Config(Some(SetSpin(isSpin)));
    r := component;
  }

  /** Sets the icon rotation. */
  method Rotate(component: OptionBase, rotate: RotateType) returns (r: OptionBase)
    requires component.Valid()
    modifies component, component.config
    ensures r == component && Applied(component, SetRotate(rotate))
  {
    var _ := component.Config(Some(SetRotate(rotate)));
    r := component;
  }

  /** Sets the child icon and, when given and not blank, its class. */
  method Child(component: OptionBase, childIcon: FontAwesomeIcon, cssClass: Option<string> := None) returns (r: OptionBase)
    requires component.Valid()
    modifies component, component.config
    ensures r == component && Applied(component, SetChild(childIcon, cssClass))
  {
    var _ := component.Config(Some(SetChild(childIcon, cssClass)));
    r := component;
  }

}
