/** The events a model reply is parsed into. JSON is kept as its trimmed source
    text; the empty text stands for `{}`. */
module Tags {
  import opened Text

  datatype Scope = Thread | Principal | Tenant

  datatype Target = Owner | Admin | Operator

  datatype Call = Call(name: string, correlationId: Option<string>, args: string, memoryClaim: bool, sideEffect: bool)

  datatype Button = Button(id: string, title: string)

  datatype ListItem = ListItem(id: string, title: string, description: Option<string>)

  datatype Ask = Ask(
    bodyText: string, buttons: seq<Button>, items: seq<ListItem>, buttonText: string, sectionTitle: string)

  datatype Swarm = Swarm(agent: string, objective: string, context: string)

  datatype Event =
    | Thinking(text: string)
    | Plan(text: string)
    | CallEvent(call: Call)
    | Say(text: string)
    | AskEvent(ask: Ask)
    | Remember(key: string, value: string, scope: Scope)
    | Recall(key: string, scope: Scope)
    | Escalate(reason: string, target: Target)
    | RequestApproval(actionLabel: string, capability: string, payload: string)
    | SwarmEvent(swarm: Swarm)
    | Final
}
