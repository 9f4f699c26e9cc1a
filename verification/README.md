# Rules: reaction rule configuration and the "mail to users of a role" action

This project is a Dafny model of two pieces of the Rules module for Drupal 8.

- **`MailToRole`** (`mail_to_users_of_role.dfy`) models the action plugin
  `rules_mail_to_users_of_role` (`SystemMailToUsersOfRole::doExecute`).
  The user storage and the mail manager are oracles passed in as functions:
  - the storage maps a role list to an account list;
  - the mail manager maps (call number, mail call) to TRUE, NULL or FALSE.

  The action is then a pure function, `DoExecute`, from its inputs to its
  `Effects`: whether the storage was queried (and with which roles), the
  mail calls in order, and the success notice if one was logged. The
  `foreach ... break` loop is the fold `SendLoop`. `SendLoop` keeps the result
  of the last call, because the source decides on logging by testing that
  last result. The lemmas relate the loop to a reference definition: the
  position of the first FALSE result (`FirstFailureFrom`).
- **`ReactionRules`** (`reaction_rule_config.dfy`) models the config entity
  `ReactionRuleConfig` as an immutable record. The record holds the persisted
  fields, the persisted pair (expression plugin id, configuration) and the
  cached executable expression as an `Option`. The expression manager is a
  pure constructor with a counter `created` of the instances it has made.
  An expression's `instance` number stands for object identity. With these,
  three promises can be stated: "built at most once", "set then get returns
  the same object" and "a clone rebuilds". The invariant `Consistent` says the
  cache agrees with the persisted pair, and every operation keeps it.
- **`Php`** (`php.dfy`) holds the PHP semantics both pieces rely on:
  - `Falsy` is the truthiness of a nullable string: NULL, `""` and `"0"` are
    falsy. It is used by `array_filter`, `empty()` and `!$label`.
  - `Implode` is `implode()`.
- **`Wrappers`** (`wrappers.dfy`) defines `Option`. Its `None` is PHP's NULL.

The repository's test for the action mocks its collaborators in ways that
do not match the source's calls:
- the mocked `mail(...)` call uses the bare plugin id as its key, where the
  source prefixes it with `rules_action_mail_to_users_of_role_`;
- the mocked call has five arguments, without the sender the source passes;
- the notice is mocked as one pre-formatted string, where the source passes
  a template and a context array;
- the test loop sets one expectation per user, but both users have the same
  address and language, so the expectations share one argument list.

The model follows the source: the key is prefixed, the sender is passed,
the notice is a template with its `%roles` value, and dispatch stops after
the first FALSE.

## Model

| member | source | states |
|---|---|---|
| MailToRole.RoleIds | src/Plugin/RulesAction/SystemMailToUsersOfRole.php:134-141 | A string is among the kept ids exactly when it is the truthy id of some input role. No kept id is falsy. The list is empty exactly when every input id is falsy, which is the early-exit condition. |
| MailToRole.RoleIdsSingleton | src/Plugin/RulesAction/SystemMailToUsersOfRole.php:136-138 | One role contributes its id exactly when the id is truthy. With `RoleIdsConcat` this determines the filter on every input. |
| MailToRole.RoleIdsConcat | src/Plugin/RulesAction/SystemMailToUsersOfRole.php:136-138 | Filtering distributes over concatenation, so the kept ids stay in input order. |
| MailToRole.MailTo | src/Plugin/RulesAction/SystemMailToUsersOfRole.php:163 | A mail call goes out under module `rules` with the shared key, params and sender, to the recipient's own address and preferred language. |
| MailToRole.SenderOf | src/Plugin/RulesAction/SystemMailToUsersOfRole.php:157-159 | The sender is the site mail when `from` is falsy. Otherwise it is `from` unchanged, which is then neither empty nor "0". |
| MailToRole.ContextOf | src/Plugin/RulesAction/SystemMailToUsersOfRole.php:152-160 | The key is `rules_action_mail_to_users_of_role_` followed by the plugin id, so the plugin id is the key's suffix. Params are {subject, body}; the sender follows the fallback. |
| MailToRole.SendLoop | src/Plugin/RulesAction/SystemMailToUsersOfRole.php:162-172 | The loop makes at most one call per remaining account. With an account left it mails that account first and ends with a defined last result. With none left it makes no call and keeps the previous result. |
| MailToRole.DoExecute | src/Plugin/RulesAction/SystemMailToUsersOfRole.php:133-177 | The storage is queried, with the full role list, exactly when some role id is non-empty. At most one mail goes out per account found. A notice is only logged after a lookup that found accounts. |
| MailToRole.SendLoopMailsUpToFirstFailure | src/Plugin/RulesAction/SystemMailToUsersOfRole.php:162-176 | The break-on-FALSE loop mails the accounts in order, up to and including the first FALSE result (or all of them). Its last result is FALSE exactly when some result was FALSE. |
| MailToRole.NoRoleIdsNoEffects | src/Plugin/RulesAction/SystemMailToUsersOfRole.php:136-141 | When every role id is falsy, there is no storage lookup, no mail and no notice. |
| MailToRole.NoAccountsNoMail | src/Plugin/RulesAction/SystemMailToUsersOfRole.php:143-150 | When the lookup finds no account, no mail is sent and nothing is logged. |
| MailToRole.MailsInOrderUntilFirstFailure | src/Plugin/RulesAction/SystemMailToUsersOfRole.php:152-172 | The number of mails is the position of the first FALSE plus one, or the number of accounts if none fails. The k-th mail goes to the k-th account's address and language, under module `rules`, key `rules_action_mail_to_users_of_role_` + plugin id, params {subject, body}, and the same sender. The sender is `from`, or the site mail when `from` is falsy. |
| MailToRole.NoMailAfterFailure | src/Plugin/RulesAction/SystemMailToUsersOfRole.php:164-171 | If the j-th account's mail returns FALSE, at most j + 1 mails are sent. |
| MailToRole.NoticeIffNoFailure | src/Plugin/RulesAction/SystemMailToUsersOfRole.php:174-176 | The notice is logged exactly when some role id is non-empty, accounts were found, and no mail returned FALSE. All-NULL results still log. The notice's `%roles` is the non-empty ids joined by ", ". |
| MailToRole.TwoRolesScenario | src/Plugin/RulesAction/SystemMailToUsersOfRole.php:133-177 | Two roles with one account each. When both mails succeed, both accounts are mailed from the site address and the notice names "administrator, editor". When the first mail returns FALSE, one mail is sent and nothing is logged. |
| Php.Implode | src/Plugin/RulesAction/SystemMailToUsersOfRole.php:175 | Joining no parts gives the empty string, and joining one part gives that part. Otherwise the result starts with the first part. |
| Php.ImplodeAppend | src/Plugin/RulesAction/SystemMailToUsersOfRole.php:175 | Joining one more part appends the separator and that part. |
| ReactionRules.Fresh | src/Entity/ReactionRuleConfig.php:57-128 | A new entity has no cached expression. Its expression id is `rules_rule`, its configuration is empty, its module is `rules`, and its description and tag are empty. |
| ReactionRules.SetExpression | src/Entity/ReactionRuleConfig.php:130-143 | The entity now caches the given expression and persists its plugin id and configuration, so cache and pair agree. No other field changes. |
| ReactionRules.GetExpression | src/Entity/ReactionRuleConfig.php:145-159 | With a cached expression: returns it and builds nothing. Without one: builds exactly one new instance from the persisted pair, tags it with the entity id and caches it. Persisted fields never change. |
| ReactionRules.GetComponent | src/Entity/ReactionRuleConfig.php:161-174 | The component wraps `getExpression()`'s result and carries the entity's event. With a cached expression it wraps that expression and builds nothing. Without one it builds exactly one instance from the persisted pair, tagged with the entity id. Persisted fields do not change. |
| ReactionRules.SetThenGetComponent | src/Entity/ReactionRuleConfig.php:138-174 | After `setExpression(x)`, `getComponent` wraps `x` itself and builds nothing. |
| ReactionRules.UpdateFromComponent | src/Entity/ReactionRuleConfig.php:176-189 | Caches and persists the component's expression. The id, label, event, module and other fields do not change. |
| ReactionRules.Clone | src/Entity/ReactionRuleConfig.php:261-268 | The copy has no cached expression and keeps every persisted field, including the expression id and configuration. |
| ReactionRules.CreateDuplicate | src/Entity/ReactionRuleConfig.php:204-211 | The duplicate has no cached expression. It carries the id the base class gives it and keeps the persisted pair and every other field. |
| ReactionRules.Label | src/Entity/ReactionRuleConfig.php:213-223 | The stored label when it is truthy, otherwise the id. |
| ReactionRules.LabelIsStoredOrId | src/Entity/ReactionRuleConfig.php:216-222 | The label is always the stored label or the id, and a falsy label is the id. Cloning and building the expression do not change the label. |
| ReactionRules.AddDependency | src/Entity/ReactionRuleConfig.php:254 | A module dependency on the entity type's provider or on core is implicit and leaves the map unchanged. Any other name is added under its type, and every other type is unchanged. |
| ReactionRules.CalculateDependencies | src/Entity/ReactionRuleConfig.php:246-259 | The result always depends on the entity's module, explicitly or implicitly as provider or core. When the module is the provider or core, the result is exactly what the base class calculated. It keeps everything the base class calculated and adds nothing else. |
| ReactionRules.GetExpressionBuildsOnce | src/Entity/ReactionRuleConfig.php:151-159 | A second `getExpression` returns the same instance and builds nothing. The first builds exactly when the cache was empty. |
| ReactionRules.SetThenGet | src/Entity/ReactionRuleConfig.php:138-159 | After `setExpression(x)`, `getExpression` returns `x` itself and builds nothing. |
| ReactionRules.CloneRebuilds | src/Entity/ReactionRuleConfig.php:264-268 | For every entity, `getExpression` on a clone builds exactly one new instance from the kept pair, tagged with the id. If the original's cache was consistent, the new instance matches the original expression's plugin id and configuration. |
| ReactionRules.DuplicateRebuilds | src/Entity/ReactionRuleConfig.php:207-211 | For every entity, `getExpression` on a duplicate builds exactly one new instance from the kept pair, tagged with the duplicate's id. |
| ReactionRules.ComponentRoundTrip | src/Entity/ReactionRuleConfig.php:170-189 | On a consistent entity, passing the component that `getComponent` returned to `updateFromComponent` changes nothing. |
| ReactionRules.OperationsPreserveConsistency | src/Entity/ReactionRuleConfig.php:138-159 | Set, get, getComponent, update, clone and duplicate all keep the cache consistent with the persisted pair. |
| ReactionRules.FreshEntity | src/Entity/ReactionRuleConfig.php:100-121 | A new entity builds a `rules_rule` expression with an empty configuration. It depends on module `rules`, implicitly when `rules` provides the entity type. Without an id it has no label. |

## Left out

- Dependency injection (`create`, the constructor) and the lookup of the expression manager service. These are wiring. The services are parameters of the model.
- Mail delivery, the logger and the query behind `loadByProperties` are oracles. The storage receives the role list itself, not the ids, as in the source.
- The mail manager is modelled as deterministic in (call number, call). Results other than TRUE, NULL and FALSE are not modelled; only a strict FALSE changes the control flow.
- The notice is kept as its template and its `%roles` value. Translation and markup formatting are not modelled.
- Plugin annotations, `config_export`, routes, links and form handlers are declarative configuration and are not modelled.
- `RulesComponent` is not part of this model. A component is reduced to its expression and its event list; the context definitions it derives from the events are not modelled.
- `getDescription`, `getTag` and `getEvent` are plain reads of the record's fields.
- The core compatibility default (`\Drupal::CORE_COMPATIBILITY`) is defined outside this code, so it is a parameter of `Fresh`.
- DoExecute: the site mail address is assumed to be set. In the source, `get('mail')` can return NULL, and a NULL sender would then reach `mail()`. The model's `siteMail` is a string, so it cannot represent that case. Control flow does not depend on it.
- CreateInstance: the expression manager is assumed to return an expression whose `getPluginId()` and `getConfiguration()` give back exactly the plugin id and configuration it was built from. The real constructor is a plugin factory outside this code and could normalise the configuration or merge defaults into it. `Consistent` after `getExpression`, and the matching half of `CloneRebuilds`, rest on this assumption.
- CreateDuplicate: the id the base class gives the duplicate is a parameter. The base class's other changes (a new uuid, the "new" flag) are not modelled.
- AddDependency: the base class's `addDependency` is not part of this code. The model follows Drupal core's config entity base class: a module dependency on the entity type's provider or on core is implicit and not recorded. The provider is a parameter.
- CalculateDependencies: the base class's calculation is a parameter. Dependency lists are sets, so the ordering and sorting done by `addDependency` are not modelled.
- Expression objects are mutable in the source. A change made to a cached expression after `setExpression` would break `Consistent` there. The model treats expressions as values.
