/**
 * The conversation around the handlers: the route table of the setup
 * conversation, one step of a user's session (which handler runs, what state
 * and draft follow) and runs of many steps.
 *
 * The invariant Consistent says the draft is filled in step order; it holds
 * in every run from an idle session, and it is exactly what the group and
 * welcome handlers need for their unchecked draft accesses.
 */
module PortalConversation {
  import opened Wrappers
  import opened Telegram
  import opened PortalHandlers

  datatype Handler =
    | PortalSetupStart
    | PortalPublicChannel
    | PortalPrivateGroup
    | PortalWelcomeMessage
    | PortalCancel

  /** What a route listens for: a command, or a message kind. */
  datatype Trigger = Command(name: string) | TextOrForwarded | Text

  datatype Route = Route(trigger: Trigger, handler: Handler)

  /** The entry point: the `portal` command with the argument `setup`. */
  function EntryPoints(): seq<Route> {
    [Route(Command("portal"), PortalSetupStart)]
  }

  function StateRoutes(s: State): seq<Route> {
    match s
    case PublicChannel => [Route(TextOrForwarded, PortalPublicChannel)]
    case PrivateGroup => [Route(TextOrForwarded, PortalPrivateGroup)]
    case WelcomeMessage => [Route(Text, PortalWelcomeMessage), Route(Command("skip"), PortalWelcomeMessage)]
    case End => []
  }

  function Fallbacks(): seq<Route> {
    [Route(Command("cancel"), PortalCancel)]
  }

  /** The routes in force: the entry points while no conversation runs, else the state's routes and the fallbacks. */
  function Routes(conv: State): seq<Route> {
    if conv == End then EntryPoints() else StateRoutes(conv) + Fallbacks()
  }

  predicate Admissible(conv: State, h: Handler) {
    exists i :: 0 <= i < |Routes(conv)| && Routes(conv)[i].handler == h
  }

  /** Which handler each state admits, read off the route table. */
  lemma AdmissibleHandlers(conv: State, h: Handler)
    ensures Admissible(conv, h) <==>
              match conv
              case End => h == PortalSetupStart
              case PublicChannel => h == PortalPublicChannel || h == PortalCancel
              case PrivateGroup => h == PortalPrivateGroup || h == PortalCancel
              case WelcomeMessage => h == PortalWelcomeMessage || h == PortalCancel
  {
    var rs := Routes(conv);
    if conv == End {
      assert rs == [Route(Command("portal"), PortalSetupStart)];
      assert rs[0].handler == PortalSetupStart;
    } else {
      assert rs == StateRoutes(conv) + [Route(Command("cancel"), PortalCancel)];
      assert rs[0].handler == h ==> Admissible(conv, h);
      assert rs[|rs| - 1].handler == PortalCancel;
      assert forall i :: 0 <= i < |rs| ==> rs[i].handler == rs[0].handler || rs[i].handler == PortalCancel;
    }
  }

  /** The framework's state for the user (End: no conversation) and the user's draft. */
  datatype Session = Session(conv: State, draft: Option<Draft>)

  /** One incoming update routed to `handler`, with what the world answers meanwhile. */
  datatype Event = Event(handler: Handler, msg: Message, world: World, ownerId: int)

  /** Draft fields are filled in step order: exactly the channel keys while awaiting the group, then the group keys too. */
  predicate Consistent(s: Session) {
    match s.conv
    case PrivateGroup => s.draft.Some? && s.draft.value.Keys == ChannelKeys
    case WelcomeMessage => s.draft.Some? && s.draft.value.Keys == ChannelKeys + GroupKeys
    case _ => true
  }

  /** The position of an active state in the wizard. */
  function Stage(s: State): nat {
    match s
    case PublicChannel => 1
    case PrivateGroup => 2
    case WelcomeMessage => 3
    case End => 0
  }

  /** One update: the framework calls the handler if the table admits it, and stores the state it returns. */
  function Step(s: Session, e: Event): (t: Session)
    requires Consistent(s)
    ensures Consistent(t)
    ensures !Admissible(s.conv, e.handler) ==> t == s
    ensures s.conv != End && e.handler == PortalCancel ==> t == Session(End, None)
    ensures s.conv == End ==> t.conv == End || (t.conv == PublicChannel && t.draft == s.draft)
    ensures s.conv != End && t.conv != End ==> Stage(s.conv) <= Stage(t.conv) <= Stage(s.conv) + 1
  {
    AdmissibleHandlers(s.conv, e.handler);
    if !Admissible(s.conv, e.handler) then s
    else
      var o := match e.handler
        case PortalSetupStart => StartStep(s.draft)
        case PortalPublicChannel => ChannelStep(s.draft, e.msg, e.world)
        case PortalPrivateGroup => GroupStep(s.draft, e.msg, e.world)
        case PortalWelcomeMessage => WelcomeStep(s.draft, e.msg, e.world, e.ownerId)
        case PortalCancel => CancelStep();
      Session(o.next, o.draft)
  }

  /** A sequence of updates, one after the other. */
  function Run(s: Session, events: seq<Event>): (t: Session)
    requires Consistent(s)
    ensures Consistent(t)
    decreases |events|
  {
    if events == [] then s else Run(Step(s, events[0]), events[1..])
  }

  /**
   * In every session reachable from an idle one, a group-step call satisfies
   * GroupStepSafe and a welcome-step call satisfies WelcomeStepSafe: while a
   * user runs one conversation at a time, the two unchecked draft accesses
   * cannot fail.
   */
  lemma ReachableHandlersAreSafe(events: seq<Event>, msg: Message, world: World)
    ensures var s := Run(Session(End, None), events);
            && (Admissible(s.conv, PortalPrivateGroup) ==> GroupStepSafe(s.draft, msg, world))
            && (Admissible(s.conv, PortalWelcomeMessage) ==> WelcomeStepSafe(s.draft, world))
  {
  }

  /** Without the setup command, an idle session stays idle and its draft untouched. */
  lemma {:induction false} IdleWithoutSetup(s: Session, events: seq<Event>)
    requires s.conv == End
    requires forall i :: 0 <= i < |events| ==> events[i].handler != PortalSetupStart
    ensures Run(s, events) == s
    decreases |events|
  {
    if events != [] {
      AdmissibleHandlers(s.conv, events[0].handler);
      IdleWithoutSetup(Step(s, events[0]), events[1..]);
    }
  }
}
