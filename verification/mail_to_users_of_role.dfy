/**
 * The "Mail to users of a role" action (`rules_mail_to_users_of_role`).
 *
 * The user storage and the mail manager are oracles passed in as functions;
 * the action is a pure function from its inputs to the effects it has on
 * them: the storage lookup it makes, the mails it asks for, in order, and the
 * notice it logs.
 */
module MailToRole {
  import opened Wrappers
  import opened Php

  /** The module name every mail is sent under. */
  const MailModule: string := "rules"
  /** The mail key is this prefix followed by the action's plugin id. */
  const KeyPrefix: string := "rules_action_mail_to_users_of_role_"
  /** The notice template; `%roles` is filled with the joined role ids. */
  const NoticeMessage: string := "Successfully sent email to the role(s) %roles."
  /** The separator between role ids in the notice. */
  const RoleSeparator: string := ", "

  /** A user role; its id is NULL (or empty) once the role has been deleted. */
  datatype Role = Role(id: Option<string>)

  /** A user account, as far as the action reads it. */
  datatype Account = Account(email: string, langcode: string)

  /** The `result` entry of the mail manager's answer: TRUE, NULL or FALSE. */
  datatype MailResult = Sent | Cancelled | Failed

  /** The `params` array handed to the mail manager. */
  datatype MailParams = MailParams(subject: string, body: string)

  /** One call `mail(module, key, to, langcode, params, from)` to the mail manager. */
  datatype MailCall = MailCall(
    moduleName: string, key: string, to: string, langcode: string,
    params: MailParams, from: string)

  /** A notice written to the logger: the template and its `%roles` value. */
  datatype Notice = Notice(message: string, roles: string)

  /**
   * What one execution does: the roles it asked the user storage for (if it
   * asked at all), the mail calls it made, in order, and the notice it logged.
   */
  datatype Effects = Effects(lookup: Option<seq<Role>>, calls: seq<MailCall>, notice: Option<Notice>)

  /** The user storage's `loadByProperties(['roles' => roles])`. */
  type UserStorage = seq<Role> -> seq<Account>

  /**
   * The mail manager: given the 0-based number of the call and the call
   * itself, the result it reports. The call number lets a stateful mail
   * manager answer the same call differently over time.
   */
  type Mailer = (nat, MailCall) -> MailResult

  /** The parts of a mail call that do not depend on the recipient. */
  datatype MailContext = MailContext(key: string, params: MailParams, from: string)

  /** The ids of the roles, with the falsy ones removed, in input order. */
  function RoleIds(roles: seq<Role>): (rids: seq<string>)
    ensures |rids| <= |roles|
    ensures forall k :: 0 <= k < |rids| ==> !Falsy(Some(rids[k]))
    ensures |rids| == 0 <==> forall j :: 0 <= j < |roles| ==> Falsy(roles[j].id)
    ensures forall x :: x in rids <==> exists j :: 0 <= j < |roles| && !Falsy(roles[j].id) && roles[j].id.value == x
  {
    if |roles| == 0 then []
    else if Falsy(roles[0].id) then RoleIds(roles[1..])
    else [roles[0].id.value] + RoleIds(roles[1..])
  }

  /** The mail call for one recipient: the shared parts plus the recipient's own address and language. */
  function MailTo(ctx: MailContext, a: Account): (c: MailCall)
    ensures c.moduleName == MailModule
    ensures c.key == ctx.key && c.params == ctx.params && c.from == ctx.from
    ensures c.to == a.email && c.langcode == a.langcode
  {
    MailCall(MailModule, ctx.key, a.email, a.langcode, ctx.params, ctx.from)
  }

  /**
   * The `foreach` over the accounts from position `i` on, with `last` the
   * result of the previous call (None before the first one): each account
   * is mailed in turn, and the loop breaks right after a FALSE result.
   * Returns the calls made and the result of the last call.
   */
  function SendLoop(ctx: MailContext, accounts: seq<Account>, mailer: Mailer, i: nat,
                    last: Option<MailResult>): (r: (seq<MailCall>, Option<MailResult>))
    requires i <= |accounts|
    ensures |r.0| <= |accounts| - i
    ensures i < |accounts| ==> |r.0| >= 1 && r.0[0] == MailTo(ctx, accounts[i]) && r.1.Some?
    ensures i == |accounts| ==> r == ([], last)
    decreases |accounts| - i
  {
    if i == |accounts| then ([], last)
    else
      var call := MailTo(ctx, accounts[i]);
      var result := mailer(i, call);
      if result == Failed then ([call], Some(result))
      else
        var rest := SendLoop(ctx, accounts, mailer, i + 1, Some(result));
        ([call] + rest.0, rest.1)
  }

  /** The model of `doExecute(roles, subject, body, from)`. */
  function DoExecute(pluginId: string, siteMail: string, storage: UserStorage, mailer: Mailer,
                     roles: seq<Role>, subject: string, body: string, from: Option<string>): (r: Effects)
    ensures r.lookup.Some? <==> |RoleIds(roles)| > 0
    ensures r.lookup.Some? ==> r.lookup.value == roles
    ensures |r.calls| <= (if r.lookup.Some? then |storage(roles)| else 0)
    ensures r.notice.Some? ==> r.lookup.Some? && |storage(roles)| > 0
  {
    var rids := RoleIds(roles);
    if |rids| == 0 then Effects(None, [], None)
    else
      var accounts := storage(roles);
      if |accounts| == 0 then Effects(Some(roles), [], None)
      else
        var ctx := ContextOf(pluginId, siteMail, subject, body, from);
        var (calls, last) := SendLoop(ctx, accounts, mailer, 0, None);
        var notice := if last != Some(Failed) then Some(Notice(NoticeMessage, Implode(RoleSeparator, rids))) else None;
        Effects(Some(roles), calls, notice)
  }

  // ---------------------------------------------------------------------
  // Reference definitions: which results the accounts get and where the
  // first failure is.
  // ---------------------------------------------------------------------

  /** The result the `j`-th account gets when it is mailed as the `j`-th call. */
  function Results(ctx: MailContext, accounts: seq<Account>, mailer: Mailer): (rs: seq<MailResult>)
    ensures |rs| == |accounts|
  {
    seq(|accounts|, j requires 0 <= j < |accounts| => mailer(j, MailTo(ctx, accounts[j])))
  }

  /** The first position at or after `i` whose result is FALSE, or `|rs|` if none is. */
  function FirstFailureFrom(rs: seq<MailResult>, i: nat): (n: nat)
    requires i <= |rs|
    ensures i <= n <= |rs|
    ensures forall j :: i <= j < n ==> rs[j] != Failed
    ensures n < |rs| ==> rs[n] == Failed
    decreases |rs| - i
  {
    if i == |rs| then i
    else if rs[i] == Failed then i
    else FirstFailureFrom(rs, i + 1)
  }

  /** How many mails go out: up to and including the first FALSE, or all. */
  function SentCount(rs: seq<MailResult>): nat {
    var n := FirstFailureFrom(rs, 0);
    if n < |rs| then n + 1 else |rs|
  }

  /** The sender: `from` unless it is falsy, then the site's mail address. */
  function SenderOf(from: Option<string>, siteMail: string): (s: string)
    ensures Falsy(from) ==> s == siteMail
    ensures !Falsy(from) ==> Some(s) == from && s != "" && s != "0"
  {
    if Falsy(from) then siteMail else from.value
  }

  /**
   * The context every mail call of one execution shares. The key is the
   * prefix followed by the plugin id, so the plugin id can be read back
   * from it.
   */
  function ContextOf(pluginId: string, siteMail: string, subject: string, body: string,
                     from: Option<string>): (ctx: MailContext)
    ensures |ctx.key| == |KeyPrefix| + |pluginId|
    ensures ctx.key[..|KeyPrefix|] == KeyPrefix && ctx.key[|KeyPrefix|..] == pluginId
    ensures ctx.params == MailParams(subject, body)
    ensures ctx.from == SenderOf(from, siteMail)
  {
    MailContext(KeyPrefix + pluginId, MailParams(subject, body), SenderOf(from, siteMail))
  }

  // ---------------------------------------------------------------------
  // Properties
  // ---------------------------------------------------------------------

  /**
   * The loop from position `i` mails the accounts `i, i+1, ...` in order up
   * to and including the first FALSE result (or to the end), and its last
   * result is FALSE exactly when a FALSE result occurred.
   */
  lemma {:induction false} SendLoopMailsUpToFirstFailure(ctx: MailContext, accounts: seq<Account>,
                                                          mailer: Mailer, i: nat, last: Option<MailResult>)
    requires i <= |accounts|
    requires last != Some(Failed)
    ensures var r := SendLoop(ctx, accounts, mailer, i, last);
            var rs := Results(ctx, accounts, mailer);
            var n := FirstFailureFrom(rs, i);
            && |r.0| == (if n < |rs| then n + 1 else |rs|) - i
            && (forall k :: 0 <= k < |r.0| ==> r.0[k] == MailTo(ctx, accounts[i + k]))
            && (r.1 == Some(Failed) <==> n < |rs|)
            && (i == |accounts| ==> r.1 == last)
    decreases |accounts| - i
  {
    var rs := Results(ctx, accounts, mailer);
    if i < |accounts| {
      var result := mailer(i, MailTo(ctx, accounts[i]));
      assert rs[i] == result;
      if result != Failed {
        SendLoopMailsUpToFirstFailure(ctx, accounts, mailer, i + 1, Some(result));
        var rest := SendLoop(ctx, accounts, mailer, i + 1, Some(result));
        var r := SendLoop(ctx, accounts, mailer, i, last);
        assert r.0 == [MailTo(ctx, accounts[i])] + rest.0;
        assert FirstFailureFrom(rs, i) == FirstFailureFrom(rs, i + 1);
        forall k | 0 <= k < |r.0|
          ensures r.0[k] == MailTo(ctx, accounts[i + k])
        {
          if k > 0 {
            assert r.0[k] == rest.0[k - 1];
          }
        }
      }
    }
  }

  /** If every role id is falsy, the action does nothing: no lookup, no mail, no notice. */
  lemma NoRoleIdsNoEffects(pluginId: string, siteMail: string, storage: UserStorage, mailer: Mailer,
                           roles: seq<Role>, subject: string, body: string, from: Option<string>)
    requires forall j :: 0 <= j < |roles| ==> Falsy(roles[j].id)
    ensures DoExecute(pluginId, siteMail, storage, mailer, roles, subject, body, from) == Effects(None, [], None)
  {
  }

  /** If the storage finds no account for the roles, no mail is sent and nothing is logged. */
  lemma NoAccountsNoMail(pluginId: string, siteMail: string, storage: UserStorage, mailer: Mailer,
                         roles: seq<Role>, subject: string, body: string, from: Option<string>)
    requires |RoleIds(roles)| > 0
    requires storage(roles) == []
    ensures DoExecute(pluginId, siteMail, storage, mailer, roles, subject, body, from) == Effects(Some(roles), [], None)
  {
  }

  /**
   * The mails go to the accounts in the storage's order, one per account,
   * and stop right after the first FALSE result: their number is the
   * position of the first FALSE plus one, or all accounts if none fails.
   * Every call carries the same module, key, params and sender, and the
   * recipient's own address and language.
   */
  lemma MailsInOrderUntilFirstFailure(pluginId: string, siteMail: string, storage: UserStorage, mailer: Mailer,
                                      roles: seq<Role>, subject: string, body: string, from: Option<string>)
    requires |RoleIds(roles)| > 0
    ensures var r := DoExecute(pluginId, siteMail, storage, mailer, roles, subject, body, from);
            var accounts := storage(roles);
            var ctx := ContextOf(pluginId, siteMail, subject, body, from);
            && |r.calls| == SentCount(Results(ctx, accounts, mailer))
            && forall k :: 0 <= k < |r.calls| ==>
                 && r.calls[k].moduleName == MailModule
                 && r.calls[k].key == KeyPrefix + pluginId
                 && r.calls[k].to == accounts[k].email
                 && r.calls[k].langcode == accounts[k].langcode
                 && r.calls[k].params == MailParams(subject, body)
                 && r.calls[k].from == SenderOf(from, siteMail)
  {
    var accounts := storage(roles);
    var ctx := ContextOf(pluginId, siteMail, subject, body, from);
    if |accounts| > 0 {
      SendLoopMailsUpToFirstFailure(ctx, accounts, mailer, 0, None);
    }
  }

  /** A FALSE result stops the dispatch: no account after it is mailed. */
  lemma NoMailAfterFailure(pluginId: string, siteMail: string, storage: UserStorage, mailer: Mailer,
                           roles: seq<Role>, subject: string, body: string, from: Option<string>, j: nat)
    requires |RoleIds(roles)| > 0
    requires j < |storage(roles)|
    requires Results(ContextOf(pluginId, siteMail, subject, body, from), storage(roles), mailer)[j] == Failed
    ensures |DoExecute(pluginId, siteMail, storage, mailer, roles, subject, body, from).calls| <= j + 1
  {
    var accounts := storage(roles);
    var ctx := ContextOf(pluginId, siteMail, subject, body, from);
    SendLoopMailsUpToFirstFailure(ctx, accounts, mailer, 0, None);
  }

  /**
   * The success notice is logged, once, exactly when the storage found
   * accounts and none of the mails sent returned FALSE (NULL results do not
   * prevent it); it names the non-empty role ids, in input order, joined by
   * ", ".
   */
  lemma NoticeIffNoFailure(pluginId: string, siteMail: string, storage: UserStorage, mailer: Mailer,
                           roles: seq<Role>, subject: string, body: string, from: Option<string>)
    ensures var r := DoExecute(pluginId, siteMail, storage, mailer, roles, subject, body, from);
            var rs := Results(ContextOf(pluginId, siteMail, subject, body, from), storage(roles), mailer);
            && (r.notice.Some? <==>
                 |RoleIds(roles)| > 0 && |storage(roles)| > 0 && forall j :: 0 <= j < |rs| ==> rs[j] != Failed)
            && (r.notice.Some? ==> r.notice.value == Notice(NoticeMessage, Implode(RoleSeparator, RoleIds(roles))))
  {
    var accounts := storage(roles);
    var ctx := ContextOf(pluginId, siteMail, subject, body, from);
    if |RoleIds(roles)| > 0 && |accounts| > 0 {
      SendLoopMailsUpToFirstFailure(ctx, accounts, mailer, 0, None);
      var rs := Results(ctx, accounts, mailer);
      var n := FirstFailureFrom(rs, 0);
      if n < |rs| {
        assert rs[n] == Failed;
      }
    }
  }

  /** A single role contributes its id exactly when the id is truthy. */
  lemma RoleIdsSingleton(r: Role)
    ensures RoleIds([r]) == if Falsy(r.id) then [] else [r.id.value]
  {
  }

  /** Filtering role ids distributes over concatenation, so it keeps input order. */
  lemma {:induction false} RoleIdsConcat(a: seq<Role>, b: seq<Role>)
    ensures RoleIds(a + b) == RoleIds(a) + RoleIds(b)
    decreases |a|
  {
    if |a| == 0 {
      assert a + b == b;
    } else {
      assert (a + b)[0] == a[0];
      assert (a + b)[1..] == a[1..] + b;
      RoleIdsConcat(a[1..], b);
    }
  }

  /**
   * The two-role scenario: roles "administrator" and "editor", one account
   * each. When every mail succeeds both accounts are mailed and the notice
   * names both roles; when the first mail returns FALSE only that one is
   * sent and nothing is logged.
   */
  lemma TwoRolesScenario(pluginId: string, siteMail: string)
    ensures var roles := [Role(Some("administrator")), Role(Some("editor"))];
            var a := Account("admin@example.com", "site_default");
            var storage: UserStorage := (rs: seq<Role>) => [a, a];
            var ok := DoExecute(pluginId, siteMail, storage, (n: nat, c: MailCall) => Sent, roles, "subject", "hello", None);
            var bad := DoExecute(pluginId, siteMail, storage, (n: nat, c: MailCall) => Failed, roles, "subject", "hello", None);
            && |ok.calls| == 2 && ok.calls[1].from == siteMail
            && ok.notice == Some(Notice(NoticeMessage, "administrator, editor"))
            && |bad.calls| == 1 && bad.notice == None
  {
    var roles := [Role(Some("administrator")), Role(Some("editor"))];
    var a := Account("admin@example.com", "site_default");
    var accounts := [a, a];
    var ctx := ContextOf(pluginId, siteMail, "subject", "hello", None);
    assert RoleIds(roles) == ["administrator", "editor"] by {
      assert RoleIds(roles[1..]) == ["editor"];
    }
    assert Implode(RoleSeparator, ["administrator", "editor"]) == "administrator, editor";
    var sent: Mailer := (n: nat, c: MailCall) => Sent;
    assert SendLoop(ctx, accounts, sent, 2, Some(Sent)) == ([], Some(Sent));
    assert sent(1, MailTo(ctx, accounts[1])) == Sent;
    assert [MailTo(ctx, a)] + [] == [MailTo(ctx, a)];
    assert SendLoop(ctx, accounts, sent, 1, Some(Sent)) == ([MailTo(ctx, a)], Some(Sent));
    assert sent(0, MailTo(ctx, accounts[0])) == Sent;
    assert [MailTo(ctx, a)] + [MailTo(ctx, a)] == [MailTo(ctx, a), MailTo(ctx, a)];
    assert SendLoop(ctx, accounts, sent, 0, None) == ([MailTo(ctx, a), MailTo(ctx, a)], Some(Sent));
    var failed: Mailer := (n: nat, c: MailCall) => Failed;
    assert SendLoop(ctx, accounts, failed, 0, None) == ([MailTo(ctx, a)], Some(Failed));
  }
}
