/**
 * The reaction rule configuration entity (`rules_reaction_rule`).
 *
 * The entity persists an expression plugin id and its configuration and
 * keeps a lazily built executable expression next to them. The entity is a
 * value; every operation returns the updated entity. The expression manager
 * is a pure constructor that counts the instances it has created, so that
 * "built at most once" and "a copy rebuilds" can be stated.
 */
module ReactionRules {
  import opened Wrappers
  import opened Php

  /** The expression plugin a new reaction rule is configured for. */
  const DefaultExpressionId: string := "rules_rule"
  /** The module that implements a new reaction rule. */
  const DefaultModule: string := "rules"

  /** A value of the nested configuration array. */
  datatype ConfigValue = Scalar(s: string) | Nested(entries: map<string, ConfigValue>)

  /** The expression plugin's configuration: a nested array. */
  type Configuration = map<string, ConfigValue>

  /**
   * An executable expression object. `instance` stands for the object's
   * identity: two expressions with the same `instance` are the same object.
   */
  datatype Expression = Expression(
    instance: nat, pluginId: string, configuration: Configuration, configEntityId: Option<string>)

  /** The expression manager; `created` counts the instances it has created. */
  datatype ExpressionManager = ExpressionManager(created: nat)

  /** A rules component, as far as this entity uses it: an expression and the events whose context it carries. */
  datatype Component = Component(expression: Expression, events: seq<Option<string>>)

  /** The reaction rule entity: its exported fields and the cached expression. */
  datatype ReactionRuleConfig = ReactionRuleConfig(
    id: Option<string>,
    storedLabel: Option<string>,
    description: string,
    tag: string,
    core: string,
    expressionId: string,
    configuration: Configuration,
    expression: Option<Expression>,
    moduleName: string,
    event: Option<string>)

  /** The result of an operation that also returns an expression and uses the manager. */
  datatype Got<T> = Got(entity: ReactionRuleConfig, value: T, manager: ExpressionManager)

  /** The cached expression, when there is one, agrees with the persisted plugin id and configuration. */
  predicate Consistent(e: ReactionRuleConfig) {
    e.expression.Some? ==>
      e.expression.value.pluginId == e.expressionId && e.expression.value.configuration == e.configuration
  }

  /** `a` and `b` agree on every field except the expression and its persisted pair. */
  predicate SameOtherFields(a: ReactionRuleConfig, b: ReactionRuleConfig) {
    && a.id == b.id && a.storedLabel == b.storedLabel && a.description == b.description && a.tag == b.tag
    && a.core == b.core && a.moduleName == b.moduleName && a.event == b.event
  }

  /** `a` and `b` agree on every persisted field; only the cached expression may differ. */
  predicate SamePersisted(a: ReactionRuleConfig, b: ReactionRuleConfig) {
    SameOtherFields(a, b) && a.expressionId == b.expressionId && a.configuration == b.configuration
  }

  /** `createInstance(pluginId, configuration)` of the expression manager. */
  function CreateInstance(m: ExpressionManager, pluginId: string, configuration: Configuration): (r: (ExpressionManager, Expression))
  {
    (ExpressionManager(m.created + 1), Expression(m.created, pluginId, configuration, None))
  }

  /**
   * A new entity with the property defaults; `core` is the framework's core
   * compatibility string.
   */
  function Fresh(core: string): (e: ReactionRuleConfig)
    ensures e.expression.None? && Consistent(e)
    ensures e.expressionId == DefaultExpressionId && e.configuration == map[]
    ensures e.moduleName == DefaultModule && e.description == "" && e.tag == ""
  {
    ReactionRuleConfig(None, None, "", "", core, DefaultExpressionId, map[], None, DefaultModule, None)
  }

  /**
   * `setExpression(x)`: caches `x` and persists its plugin id and
   * configuration; nothing else changes.
   */
  function SetExpression(e: ReactionRuleConfig, x: Expression): (r: ReactionRuleConfig)
    ensures r.expression == Some(x)
    ensures r.expressionId == x.pluginId && r.configuration == x.configuration
    ensures Consistent(r)
    ensures SameOtherFields(e, r)
  {
    e.(expression := Some(x), expressionId := x.pluginId, configuration := x.configuration)
  }

  /**
   * `getExpression()`: the cached expression if there is one; otherwise a
   * new instance built from the persisted pair, tagged with the entity id
   * and cached.
   */
  function GetExpression(e: ReactionRuleConfig, m: ExpressionManager): (r: Got<Expression>)
    ensures r.entity.expression == Some(r.value)
    ensures SamePersisted(e, r.entity)
    ensures Consistent(e) ==> Consistent(r.entity)
    ensures e.expression.Some? ==> r.value == e.expression.value && r.manager == m && r.entity == e
    ensures e.expression.None? ==>
              && r.manager.created == m.created + 1
              && r.value.instance == m.created
              && r.value.pluginId == e.expressionId
              && r.value.configuration == e.configuration
              && r.value.configEntityId == e.id
  {
    if e.expression.Some? then Got(e, e.expression.value, m)
    else
      var built := CreateInstance(m, e.expressionId, e.configuration);
      var x := built.1.(configEntityId := e.id);
      Got(e.(expression := Some(x)), x, built.0)
  }

  /**
   * `getComponent()`: a component around `getExpression()` that carries the
   * context of the entity's event.
   */
  function GetComponent(e: ReactionRuleConfig, m: ExpressionManager): (r: Got<Component>)
    ensures r.entity.expression == Some(r.value.expression)
    ensures r.value.events == [e.event]
    ensures SamePersisted(e, r.entity)
    ensures e.expression.Some? ==> r.value.expression == e.expression.value && r.entity == e && r.manager == m
    ensures e.expression.None? ==>
              && r.manager.created == m.created + 1
              && r.value.expression.instance == m.created
              && r.value.expression.pluginId == e.expressionId
              && r.value.expression.configuration == e.configuration
              && r.value.expression.configEntityId == e.id
  {
    var g := GetExpression(e, m);
    Got(g.entity, Component(g.value, [e.event]), g.manager)
  }

  /** `updateFromComponent(c)`: sets the component's expression; the events are handled elsewhere. */
  function UpdateFromComponent(e: ReactionRuleConfig, c: Component): (r: ReactionRuleConfig)
    ensures r.expression == Some(c.expression)
    ensures r.expressionId == c.expression.pluginId && r.configuration == c.expression.configuration
    ensures SameOtherFields(e, r)
  {
    SetExpression(e, c.expression)
  }

  /** `clone`: the copy drops the expression so that it is built from scratch. */
  function Clone(e: ReactionRuleConfig): (r: ReactionRuleConfig)
    ensures r.expression.None? && Consistent(r)
    ensures SamePersisted(e, r)
  {
    e.(expression := None)
  }

  /**
   * `createDuplicate()`: the base class's duplicate is a clone of the entity
   * that it gives the id `duplicateId` (the base class chooses it; it is not
   * part of this model); the expression is then unset again.
   */
  function CreateDuplicate(e: ReactionRuleConfig, duplicateId: Option<string>): (r: ReactionRuleConfig)
    ensures r.expression.None? && Consistent(r)
    ensures r.id == duplicateId
    ensures SamePersisted(e.(id := duplicateId), r)
  {
    Clone(e).(id := duplicateId).(expression := None)
  }

  /** `label()`: the stored label unless it is falsy, then the id. */
  function Label(e: ReactionRuleConfig): (r: Option<string>)
    ensures !Falsy(e.storedLabel) ==> r == e.storedLabel
    ensures Falsy(e.storedLabel) ==> r == e.id
  {
    if Falsy(e.storedLabel) then e.id else e.storedLabel
  }

  /** Dependencies: dependency type (`module`, `config`, ...) to the names depended on. */
  type Dependencies = map<string, set<string>>

  /** Core: a module dependency on it is always implicit. */
  const CoreModule: string := "core"

  /**
   * `deps`, for an entity type provided by `provider`, depends on module
   * `name`: explicitly, or implicitly because `name` is the provider or core.
   */
  predicate DependsOnModule(deps: Dependencies, provider: string, name: string) {
    name == provider || name == CoreModule || ("module" in deps && name in deps["module"])
  }

  /**
   * `addDependency(type, name)` of the config entity base class: a module
   * dependency on the entity type's provider or on core is implicit and not
   * recorded; any other dependency is added under its type.
   */
  function AddDependency(deps: Dependencies, provider: string, kind: string, name: string): (r: Dependencies)
    ensures kind == "module" && (name == provider || name == CoreModule) ==> r == deps
    ensures !(kind == "module" && (name == provider || name == CoreModule)) ==>
              && r.Keys == deps.Keys + {kind}
              && r[kind] == (if kind in deps then deps[kind] else {}) + {name}
              && forall t :: t in deps && t != kind ==> r[t] == deps[t]
  {
    if kind == "module" && (name == provider || name == CoreModule) then deps
    else deps[kind := (if kind in deps then deps[kind] else {}) + {name}]
  }

  /**
   * `calculateDependencies()`, given what the base class calculated and the
   * entity type's provider: those dependencies plus one on the implementing
   * module.
   */
  function CalculateDependencies(e: ReactionRuleConfig, inherited: Dependencies, provider: string): (r: Dependencies)
    ensures DependsOnModule(r, provider, e.moduleName)
    ensures forall t :: t in inherited ==> t in r && inherited[t] <= r[t]
    ensures forall t :: t in r && t != "module" ==> t in inherited && r[t] == inherited[t]
    ensures e.moduleName == provider || e.moduleName == CoreModule ==> r == inherited
    ensures "module" in r ==> r["module"] <= (if "module" in inherited then inherited["module"] else {}) + {e.moduleName}
  {
    AddDependency(inherited, provider, "module", e.moduleName)
  }

  /** The label is always either the stored label or the id, and it is the id whenever it is falsy. */
  lemma LabelIsStoredOrId(e: ReactionRuleConfig, m: ExpressionManager)
    ensures Label(e) == e.storedLabel || Label(e) == e.id
    ensures Falsy(Label(e)) ==> Label(e) == e.id
    ensures Label(e) == Label(Clone(e)) && Label(e) == Label(GetExpression(e, m).entity)
  {
  }

  // ---------------------------------------------------------------------
  // Properties relating several operations
  // ---------------------------------------------------------------------

  /** A second `getExpression()` returns the same instance and builds nothing. */
  lemma GetExpressionBuildsOnce(e: ReactionRuleConfig, m: ExpressionManager)
    ensures var g1 := GetExpression(e, m);
            var g2 := GetExpression(g1.entity, g1.manager);
            && g2 == g1
            && g1.manager.created <= m.created + 1
            && (e.expression.Some? <==> g1.manager.created == m.created)
  {
  }

  /** After `setExpression(x)`, `getExpression()` returns `x` itself and builds nothing. */
  lemma SetThenGet(e: ReactionRuleConfig, x: Expression, m: ExpressionManager)
    ensures var s := SetExpression(e, x);
            GetExpression(s, m) == Got(s, x, m)
  {
  }

  /**
   * A clone keeps the persisted pair and has no expression, so the next
   * `getExpression()` builds a new instance; when the original's cache was
   * consistent, the rebuilt expression has the same plugin id and
   * configuration as the one the original held.
   */
  lemma CloneRebuilds(e: ReactionRuleConfig, m: ExpressionManager)
    ensures var g := GetExpression(Clone(e), m);
            && g.manager.created == m.created + 1
            && g.value.instance == m.created
            && g.value.pluginId == e.expressionId && g.value.configuration == e.configuration
            && g.value.configEntityId == e.id
            && (Consistent(e) && e.expression.Some? ==>
                  g.value.pluginId == e.expression.value.pluginId
                  && g.value.configuration == e.expression.value.configuration)
  {
  }

  /**
   * The same holds of `createDuplicate()`; the rebuilt expression is tagged
   * with the duplicate's id.
   */
  lemma DuplicateRebuilds(e: ReactionRuleConfig, duplicateId: Option<string>, m: ExpressionManager)
    ensures var g := GetExpression(CreateDuplicate(e, duplicateId), m);
            && g.manager.created == m.created + 1
            && g.value.instance == m.created
            && g.value.pluginId == e.expressionId && g.value.configuration == e.configuration
            && g.value.configEntityId == duplicateId
  {
  }

  /**
   * After `setExpression(x)`, the component `getComponent()` returns wraps
   * `x` itself, and nothing is built.
   */
  lemma SetThenGetComponent(e: ReactionRuleConfig, x: Expression, m: ExpressionManager)
    ensures var s := SetExpression(e, x);
            var g := GetComponent(s, m);
            g.value.expression == x && g.entity == s && g.manager == m
  {
  }

  /**
   * Round trip: writing back the component that `getComponent()` returned
   * leaves a consistent entity as it was after the read.
   */
  lemma ComponentRoundTrip(e: ReactionRuleConfig, m: ExpressionManager)
    requires Consistent(e)
    ensures var g := GetComponent(e, m);
            UpdateFromComponent(g.entity, g.value) == g.entity
  {
  }

  /** Every operation keeps the cached expression consistent with the persisted pair. */
  lemma OperationsPreserveConsistency(e: ReactionRuleConfig, x: Expression, c: Component, m: ExpressionManager,
                                      duplicateId: Option<string>)
    requires Consistent(e)
    ensures Consistent(SetExpression(e, x))
    ensures Consistent(GetExpression(e, m).entity)
    ensures Consistent(GetComponent(e, m).entity)
    ensures Consistent(UpdateFromComponent(e, c))
    ensures Consistent(Clone(e)) && Consistent(CreateDuplicate(e, duplicateId))
  {
  }

  /**
   * A new entity builds a `rules_rule` expression with an empty
   * configuration, depends on the `rules` module (implicitly when `rules`
   * provides the entity type) and, while it has no id, has no label.
   */
  lemma FreshEntity(core: string, m: ExpressionManager, inherited: Dependencies, provider: string)
    ensures var g := GetExpression(Fresh(core), m);
            g.value.pluginId == DefaultExpressionId && g.value.configuration == map[]
    ensures DependsOnModule(CalculateDependencies(Fresh(core), inherited, provider), provider, DefaultModule)
    ensures Label(Fresh(core)) == None
  {
  }
}
