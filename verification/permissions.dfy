/**
 * The request authorisation of `TApplication::run` (engine.php): whether a request is
 * dispatched to the framework, denied with HTTP 401, or ignored, from the request
 * parameters, the session and the application configuration.
 *
 * The session, the configuration and the mobile-token login are inputs: the login is a
 * function from the token to the new session or the exception's message.
 */
module Permissions {
  import opened Results
  import opened Strings

  /** A PHP scalar as the session stores it in `programs_actions`. */
  datatype PhpValue = PBool(b: bool) | PInt(i: int) | PString(s: string) | PNull

  /** `$v == false` under PHP loose comparison (the value is converted to bool). */
  predicate LooselyFalse(v: PhpValue) {
    match v
    case PBool(b) => !b
    case PInt(i) => i == 0
    case PString(s) => Empty(s)
    case PNull => true
  }

  datatype Session = Session(
    logged: bool,                                   // `TSession::getValue('logged')`, as a truth value
    programs: set<string>,                          // the keys of `programs`
    programsActions: map<string, map<string, PhpValue>>)

  datatype Config = Config(
    publicClasses: seq<string>,                     // `permission.public_classes`
    userPublicPages: set<string>)                   // the keys of `user_public_pages`

  /** The outcomes of `run`. */
  datatype Decision =
    | NoOp                                          // empty request: nothing happens
    | Dispatch                                      // `parent::run($debug)`
    | Deny(logout: bool)                            // 401 "Permission denied", with the logout action when not logged
    | TokenError(message: string)                   // the mobile-token login failed

  /** The programs every logged user may open (`getDefaultPermissions`). */
  const DefaultPermissions: set<string> := {
    "Adianti\\Base\\TStandardSeek", "LoginForm", "AdiantiMultiSearchService", "AdiantiUploaderService",
    "AdiantiAutocompleteService", "EmptyPage", "MessageList", "SystemDocumentUploaderService",
    "NotificationList", "SearchBox", "SearchInputBox", "BuilderPageService", "BuilderPageBatchUpdate",
    "BuilderPermissionUpdate", "BuilderConfigForm", "BuilderConfigList", "BuilderMenuUpdate",
    "BuilderColumnDiffForm", "BuilderConfirmCommandsDiffForm", "BuilderCustomCssService",
    "BuilderDatabaseDiffForm", "BuilderTableDiffForm", "BuilderViewsDiffForm", "SystemFrameworkUpdate",
    "SystemPageService", "SystemPageBatchUpdate", "SystemPermissionUpdate", "SystemMenuUpdate",
    "SystemChangeUnitForm", "System2FAEmailForm", "System2FAForm", "System2FAGoogleForm", "BuilderService"}

  /** `$_REQUEST[key]` when it is set, "" otherwise. */
  function Param(req: map<string, string>, key: string): string {
    if key in req then req[key] else ""
  }

  /** `isset($programs_actions[$class][$method]) && $programs_actions[$class][$method] == false`. */
  predicate ActionDisabled(actions: map<string, map<string, PhpValue>>, cls: string, act: string) {
    cls in actions && act in actions[cls] && !actions[cls][act].PNull? && LooselyFalse(actions[cls][act])
  }

  /** The permission decision once the request is known to be non-empty. */
  function Decide(req: map<string, string>, s: Session, cfg: Config): (d: Decision)
    ensures d.Dispatch? || d.Deny?
    ensures d.Deny? ==> d.logout == !s.logged
  {
    var cls := Param(req, "class");
    var act := Param(req, "method");
    var isPublic := cls in cfg.publicClasses;
    var publicMobile := cls in cfg.userPublicPages;
    if s.logged then
      var programs := s.programs + DefaultPermissions;
      if isPublic || publicMobile then Dispatch
      else if ActionDisabled(s.programsActions, cls, act) || cls !in programs then Deny(false)
      else Dispatch
    else if cls == "LoginForm" || isPublic then Dispatch
    else Deny(true)
  }

  /** True when the request asks for a mobile-token login (`! empty($_REQUEST['token_mobile'])`). */
  predicate HasToken(req: map<string, string>) {
    Truthy(Param(req, "token_mobile"))
  }

  /** `run`: the token login first, then nothing for an empty request, otherwise the decision. */
  function Run(req: map<string, string>, s: Session, cfg: Config, tokenLogin: string -> Result<Session, string>): (d: Decision)
    ensures d.TokenError? <==> HasToken(req) && tokenLogin(Param(req, "token_mobile")).Err?
    ensures d.TokenError? ==> d.message == tokenLogin(Param(req, "token_mobile")).error
    ensures d.NoOp? <==> |req| == 0
  {
    match TokenSession(req, s, tokenLogin)
    case Err(stop) => stop
    case Ok(session) => if |req| == 0 then NoOp else Decide(req, session, cfg)
  }

  /** The session after the token login, or the error that ends `run`. */
  function TokenSession(req: map<string, string>, s: Session, tokenLogin: string -> Result<Session, string>): (r: Result<Session, Decision>)
    ensures r.Err? <==> HasToken(req) && tokenLogin(Param(req, "token_mobile")).Err?
    ensures r.Err? ==> r.error == TokenError(tokenLogin(Param(req, "token_mobile")).error)
    ensures !HasToken(req) ==> r == Ok(s)
  {
    if HasToken(req) then
      match tokenLogin(Param(req, "token_mobile"))
      case Err(m) => Err(TokenError(m))
      case Ok(s1) => Ok(s1)
    else Ok(s)
  }

  /** Whether a logged user may open the class at all: a public page, or a permitted and enabled program. */
  predicate LoggedMayOpen(s: Session, cfg: Config, cls: string, act: string) {
    cls in cfg.publicClasses || cls in cfg.userPublicPages ||
    (cls in s.programs + DefaultPermissions && !ActionDisabled(s.programsActions, cls, act))
  }

  /** Whether a visitor may open the class: the login form or a public class. */
  predicate VisitorMayOpen(cfg: Config, cls: string) {
    cls == "LoginForm" || cls in cfg.publicClasses
  }

  /** The decision follows the two access rules: dispatch exactly when allowed, deny otherwise. */
  lemma DecideFollowsRules(req: map<string, string>, s: Session, cfg: Config)
    ensures s.logged ==> (Decide(req, s, cfg).Dispatch? <==> LoggedMayOpen(s, cfg, Param(req, "class"), Param(req, "method")))
    ensures !s.logged ==> (Decide(req, s, cfg).Dispatch? <==> VisitorMayOpen(cfg, Param(req, "class")))
    ensures !Decide(req, s, cfg).Dispatch? <==> Decide(req, s, cfg).Deny?
  {
  }

  /** A visitor is never let in by a mobile public page: `user_public_pages` only counts once logged. */
  lemma VisitorIgnoresMobilePages(req: map<string, string>, s: Session, cfg: Config, pages: set<string>)
    requires !s.logged
    ensures Decide(req, s, cfg) == Decide(req, s, cfg.(userPublicPages := pages))
  {
  }

  /** For a logged user a public or mobile-public page is dispatched whatever the program permissions say. */
  lemma PublicIgnoresPrograms(req: map<string, string>, s: Session, cfg: Config,
                              programs: set<string>, actions: map<string, map<string, PhpValue>>)
    requires s.logged
    requires Param(req, "class") in cfg.publicClasses || Param(req, "class") in cfg.userPublicPages
    ensures Decide(req, s, cfg) == Dispatch
    ensures Decide(req, s.(programs := programs, programsActions := actions), cfg) == Dispatch
  {
  }

  /** Granting more programs never turns a dispatched request into a denied one. */
  lemma MoreProgramsNeverDeny(req: map<string, string>, s: Session, cfg: Config, more: set<string>)
    requires Decide(req, s, cfg).Dispatch?
    ensures Decide(req, s.(programs := s.programs + more), cfg).Dispatch?
  {
  }

  /**
   * A default program is open to every logged user unless its method is explicitly
   * disabled, whatever programs the session lists.
   */
  lemma DefaultsOpenToLogged(req: map<string, string>, s: Session, cfg: Config)
    requires s.logged && Param(req, "class") in DefaultPermissions
    ensures Decide(req, s, cfg).Deny? ==> ActionDisabled(s.programsActions, Param(req, "class"), Param(req, "method"))
    ensures !ActionDisabled(s.programsActions, Param(req, "class"), Param(req, "method")) ==> Decide(req, s, cfg) == Dispatch
  {
  }

  /**
   * The login form opens for everyone: a visitor by the visitor rule, a logged user because
   * it is a default program, unless its method is disabled in the session.
   */
  lemma LoginFormAlwaysOpens(req: map<string, string>, s: Session, cfg: Config)
    requires Param(req, "class") == "LoginForm"
    requires !ActionDisabled(s.programsActions, "LoginForm", Param(req, "method"))
    ensures Decide(req, s, cfg) == Dispatch
  {
  }

  /** A disabled method is denied even for a permitted program, unless the class is public. */
  lemma DisabledActionDenied(req: map<string, string>, s: Session, cfg: Config)
    requires s.logged && ActionDisabled(s.programsActions, Param(req, "class"), Param(req, "method"))
    requires Param(req, "class") !in cfg.publicClasses && Param(req, "class") !in cfg.userPublicPages
    ensures Decide(req, s, cfg) == Deny(false)
  {
  }

  /** A stored `null` does not count as set: it never disables a method. */
  lemma NullDoesNotDisable(actions: map<string, map<string, PhpValue>>, cls: string, act: string)
    requires cls in actions && act in actions[cls] && actions[cls][act] == PNull
    ensures !ActionDisabled(actions, cls, act)
  {
  }

  /** A failed token login ends `run` before any permission decision, whatever the request. */
  lemma TokenFailureStops(req: map<string, string>, s: Session, cfg: Config, tokenLogin: string -> Result<Session, string>)
    requires HasToken(req) && tokenLogin(Param(req, "token_mobile")).Err?
    ensures Run(req, s, cfg, tokenLogin) == TokenError(tokenLogin(Param(req, "token_mobile")).error)
    ensures !Run(req, s, cfg, tokenLogin).Dispatch? && !Run(req, s, cfg, tokenLogin).Deny?
  {
  }

  /** After a successful token login the decision is made on the session the token opened. */
  lemma TokenSessionDecides(req: map<string, string>, s: Session, cfg: Config, tokenLogin: string -> Result<Session, string>)
    requires HasToken(req) && tokenLogin(Param(req, "token_mobile")).Ok?
    ensures Run(req, s, cfg, tokenLogin) == Decide(req, tokenLogin(Param(req, "token_mobile")).value, cfg)
  {
    assert "token_mobile" in req;
  }
}
