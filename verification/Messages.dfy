/** The messages of the agent stream, and the agent's command dispatcher.

Payload arguments are kept as uninterpreted text: routing looks only at the kind
of command and at which optional modules the agent was started with. */
module Messages {

  datatype Option<+T> = None | Some(value: T) {
    function Or(default: T): T { if Some? then value else default }
  }

  /** Command identifiers stand for UUIDs: the only thing used about them is freshness. */
  type CommandId = nat
  type ServerId = string

  datatype Kind =
    | CreateVhost | DeleteVhost
    | CreateAccount | DeleteAccount
    | CreateDatabase | DeleteDatabase
    | CreateDnsZone | DeleteDnsZone | UpsertDnsRecord | DeleteDnsRecord
    | CreateEmail | DeleteEmail | CreateEmailDomain | DeleteEmailDomain
    | CreateEmailAlias | DeleteEmailAlias
    | IssueCert | RestartService | Unset

  datatype Payload = Payload(kind: Kind, args: string)
  datatype Command = Command(id: CommandId, payload: Payload)
  datatype CommandResult = CommandResult(id: CommandId, success: bool, error: string)

  datatype ServerMessage =
    | RegisterResponse(accepted: bool, serverId: ServerId)
    | CommandMessage(cmd: Command)

  datatype AgentMessage =
    | RegisterRequest(token: string, hostname: string)
    | Heartbeat(metrics: string)
    | ResultMessage(result: CommandResult)
    | Log(about: CommandId, text: string)
}

/** The dispatcher: one result for every command, carrying that command's identifier. */
module Dispatcher {
  import opened Messages

  /** Which optional back ends the agent was started with. */
  datatype Modules = Modules(db: bool, dns: bool, email: bool)

  /** The command reaches a handler, rather than a "not configured" or "unhandled" error. */
  predicate Routed(m: Modules, kind: Kind) {
    match kind
    case CreateVhost | DeleteVhost | CreateAccount | DeleteAccount | RestartService => true
    case CreateDatabase | DeleteDatabase => m.db
    case CreateDnsZone | DeleteDnsZone | UpsertDnsRecord | DeleteDnsRecord => m.dns
    case CreateEmail | DeleteEmail | CreateEmailDomain | DeleteEmailDomain
      | CreateEmailAlias | DeleteEmailAlias => m.email
    case IssueCert | Unset => false
  }

  /** The error text of a command that reaches no handler. */
  function RoutingError(kind: Kind): string {
    match kind
    case CreateDatabase | DeleteDatabase => "database manager not configured on this server"
    case CreateDnsZone | DeleteDnsZone | UpsertDnsRecord | DeleteDnsRecord =>
      "DNS client not configured on this server"
    case CreateEmail | DeleteEmail | CreateEmailDomain | DeleteEmailDomain
      | CreateEmailAlias | DeleteEmailAlias => "email manager not configured on this server"
    case IssueCert => "unhandled command type *agentv1.Command_IssueCert"
    case _ => "unhandled command type <nil>"
  }

  /** `outcome` is what the handler returned: an error text, or nothing for success. */
  function Dispatch(m: Modules, cmd: Command, outcome: Option<string>): (r: CommandResult)
    ensures r.id == cmd.id
    ensures r.success <==> Routed(m, cmd.payload.kind) && outcome == None
    ensures r.success ==> r.error == ""
    ensures !r.success ==>
              r.error == if Routed(m, cmd.payload.kind) then outcome.value else RoutingError(cmd.payload.kind)
  {
    var err := if Routed(m, cmd.payload.kind) then outcome else Some(RoutingError(cmd.payload.kind));
    match err
    case Some(text) => CommandResult(cmd.id, false, text)
    case None => CommandResult(cmd.id, true, "")
  }

  /** The answer with a module there, and without it. */
  predicate Answers(r: CommandResult, present: bool, missing: string, outcome: Option<string>) {
    && (r.success <==> present && outcome == None)
    && r.error == if !present then missing else if outcome.Some? then outcome.value else ""
  }

  /** Database commands need the database manager and nothing else. */
  lemma DatabaseAnswers(m: Modules, cmd: Command, outcome: Option<string>)
    requires var kind := cmd.payload.kind;
      kind.CreateDatabase? || kind.DeleteDatabase?
    ensures Answers(Dispatch(m, cmd, outcome), m.db, "database manager not configured on this server", outcome)
  {
  }

  /** DNS commands need the DNS client and nothing else. */
  lemma DnsAnswers(m: Modules, cmd: Command, outcome: Option<string>)
    requires var kind := cmd.payload.kind;
      kind.CreateDnsZone? || kind.DeleteDnsZone?
      || kind.UpsertDnsRecord? || kind.DeleteDnsRecord?
    ensures Answers(Dispatch(m, cmd, outcome), m.dns, "DNS client not configured on this server", outcome)
  {
  }

  /** Mail commands need the email manager and nothing else. */
  lemma EmailAnswers(m: Modules, cmd: Command, outcome: Option<string>)
    requires var kind := cmd.payload.kind;
      kind.CreateEmail? || kind.DeleteEmail? || kind.CreateEmailDomain?
      || kind.DeleteEmailDomain? || kind.CreateEmailAlias? || kind.DeleteEmailAlias?
    ensures Answers(Dispatch(m, cmd, outcome), m.email, "email manager not configured on this server", outcome)
  {
  }

  /** Vhosts, accounts and services need no module. */
  lemma HostAnswers(m: Modules, cmd: Command, outcome: Option<string>)
    requires var kind := cmd.payload.kind;
      kind.CreateVhost? || kind.DeleteVhost?
      || kind.CreateAccount? || kind.DeleteAccount? || kind.RestartService?
    ensures Answers(Dispatch(m, cmd, outcome), true, "", outcome)
  {
  }

  /** Certificates and commands without a payload are never handled. */
  lemma UnhandledAnswers(m: Modules, cmd: Command, outcome: Option<string>)
    requires cmd.payload.kind.IssueCert? || cmd.payload.kind.Unset?
    ensures !Dispatch(m, cmd, outcome).success
    ensures Dispatch(m, cmd, outcome).error ==
            if cmd.payload.kind.IssueCert? then "unhandled command type *agentv1.Command_IssueCert"
            else "unhandled command type <nil>"
  {
  }

  /** The answer to a command depends on no module but its own. */
  lemma OtherModulesDoNotMatter(m: Modules, n: Modules, cmd: Command, outcome: Option<string>)
    requires var kind := cmd.payload.kind; kind.CreateDatabase? || kind.DeleteDatabase? ==> m.db == n.db
    requires var kind := cmd.payload.kind;
      kind.CreateDnsZone? || kind.DeleteDnsZone? || kind.UpsertDnsRecord? || kind.DeleteDnsRecord? ==> m.dns == n.dns
    requires var kind := cmd.payload.kind;
      (kind.CreateEmail? || kind.DeleteEmail? || kind.CreateEmailDomain? || kind.DeleteEmailDomain?
       || kind.CreateEmailAlias? || kind.DeleteEmailAlias?) ==> m.email == n.email
    ensures Dispatch(m, cmd, outcome) == Dispatch(n, cmd, outcome)
  {
  }
}
