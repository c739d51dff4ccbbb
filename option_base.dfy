/**
 * The base of every configurable component: it owns at most one
 * configuration, created on first use and reused afterwards, and exposes a
 * single entry point that runs a configuration action against it.
 */
module Components {
  import opened Nullable
  import Configs
  import opened ConfigActions

  /** The outcome of `Config`: done, or the argument-null failure for the named parameter. */
  datatype Outcome = Pass | ArgumentNull(paramName: string)

  class OptionBase {
    /** The lazily created configuration; null until first use. */
    var config: Configs.Config?

    ghost predicate Valid()
      reads this, config
    {
      config != null ==> config.Valid()
    }

    /** The state the next action will see: the configuration's, or an empty one if none exists yet. */
    function StateOrEmpty(): Configs.ConfigState
      reads this, config
    {
      if config == null then Configs.EmptyState() else config.State()
    }

    constructor ()
      ensures Valid() && config == null
    {
      config := null;
    }

    /** The default factory: a new, empty configuration. */
    method GetConfig() returns (c: Configs.Config)
      ensures fresh(c) && c.Valid() && c.State() == Configs.EmptyState()
    {
      c := new Configs.Config();
    }

    /** The configuration, created by `GetConfig` on the first access and the same object on every later one. */
    method OptionConfig() returns (c: Configs.Config)
      requires Valid()
      modifies this
      ensures Valid() && config == c
      ensures old(config) != null ==> c == old(config)
      ensures old(config) == null ==> fresh(c)
      ensures c.State() == old(StateOrEmpty())
    {
      if config == null {
        config := GetConfig();
      }
      c := config;
    }

    /**
     * Runs the action once against the shared configuration. A null action
     * fails before the configuration is touched or created.
     */
    method Config(configAction: Option<ConfigAction>) returns (outcome: Outcome)
      requires Valid()
      modifies this, config
      ensures Valid()
      ensures configAction.None? ==> outcome == ArgumentNull("configAction") && config == old(config)
      ensures configAction.None? && config != null ==> unchanged(config)
      ensures configAction.Some? ==> outcome == Pass && Applied(this, configAction.value)
    {
      if configAction.None? {
        return ArgumentNull("configAction");
      }
      var c := OptionConfig();
      Run(c, configAction.value);
      outcome := Pass;
    }
  }

  /**
   * The component's configuration is the one it had before (or a fresh one if
   * it had none), and its state is the old state with the action applied once.
   */
  twostate predicate Applied(component: OptionBase, action: ConfigAction)
    reads component, component.config
  {
    && component.Valid()
    && component.config != null
    && (old(component.config) != null ==> component.config == old(component.config))
    && (old(component.config) == null ==> fresh(component.config))
    && component.config.State() == Step(old(component.StateOrEmpty()), action)
  }

  /** Two successive calls act on one shared configuration, in call order. */
  method ConfigTwice(component: OptionBase, first: ConfigAction, second: ConfigAction)
    requires component.Valid()
    modifies component, component.config
    ensures component.Valid() && component.config != null
    ensures old(component.config) != null ==> component.config == old(component.config)
    ensures component.config.State() == Step(Step(old(component.StateOrEmpty()), first), second)
  {
    var _ := component.Config(Some(first));
    var _ := component.Config(Some(second));
  }

}
