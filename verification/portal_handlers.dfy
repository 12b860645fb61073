/**
 * The `/portal setup` wizard: three handlers that read one message each,
 * consult the platform, write the per-user setup draft and return the next
 * conversation state, plus the cancel handler.
 *
 * Each handler is specified by a function from (draft, message, platform
 * answers) to an Outcome; the class PortalSetup holds the draft and runs the
 * same steps imperatively, each method proved equal to its function.
 */
module PortalHandlers {
  import opened Wrappers
  import opened Telegram
  import PyInt

  /** The conversation states; End is the framework's END. */
  datatype State = PublicChannel | PrivateGroup | WelcomeMessage | End

  /** The keys the handlers store under the user's 'portal_setup' entry. */
  datatype DraftKey =
    | PublicChannelId        // 'public_channel_id'
    | PublicChannelUsername  // 'public_channel_username'
    | PublicChannelTitle     // 'public_channel_title'
    | PrivateGroupId         // 'private_group_id'
    | PrivateGroupTitle      // 'private_group_title'

  /** A value stored in the draft dictionary: an int, a str or None. */
  datatype Value = IntValue(i: int) | StrValue(s: string) | NoneValue

  type Draft = map<DraftKey, Value>

  /** A truthy portal id: `if portal_id:` treats the empty string like None. */
  type PortalId = s: string | s != "" witness "p"

  const ChannelKeys: set<DraftKey> := {PublicChannelId, PublicChannelUsername, PublicChannelTitle}
  const GroupKeys: set<DraftKey> := {PrivateGroupId, PrivateGroupTitle}
  /** The keys the welcome step reads when it calls the portal service. */
  const RequestKeys: set<DraftKey> := {PublicChannelId, PublicChannelUsername, PrivateGroupId, PrivateGroupTitle}

  /** The keyword arguments of `create_portal`. */
  datatype PortalRequest = PortalRequest(
    ownerId: int,
    publicChannelId: Value,
    publicChannelUsername: Value,
    privateGroupId: Value,
    privateGroupTitle: Value,
    welcomeMessage: Option<string>)

  /**
   * What the outside world answers during one handler call: chat lookup,
   * the bot's membership lookup (by chat id), and the portal service if one
   * is registered (its `create_portal`, None standing for any falsy result,
   * the empty string included).
   */
  datatype World = World(
    getChat: ChatQuery -> Call<Chat>,
    getChatMember: int -> Call<ChatMember>,
    portalService: Option<PortalRequest -> Option<PortalId>>)

  /** Which reply the handler sends. */
  datatype Reply =
    | SetupPrompt
    | InvalidInput
    | WrongChatType
    | NotAdmin
    | NoInvitePermission
    | AdminCheckFailed
    | ChatNotFound
    | Verified(title: Option<string>)
    | SetupDataLost
    | ServiceUnavailable
    | PortalCreated(portalId: PortalId, channelUsername: Value, groupTitle: Value)
    | CreationFailed
    | Cancelled

  /** The returned state, the draft afterwards, the reply, and the `create_portal` call made, if any. */
  datatype Outcome = Outcome(next: State, draft: Option<Draft>, reply: Reply, request: Option<PortalRequest>)

  function OptionalText(t: Option<string>): Value {
    match t
    case Some(s) => StrValue(s)
    case None => NoneValue
  }

  /** The draft a successful channel step stores. */
  function ChannelDraft(id: int, username: Option<string>, title: Option<string>): (d: Draft)
    ensures d.Keys == ChannelKeys
    ensures d[PublicChannelId] == IntValue(id)
  {
    map[PublicChannelId := IntValue(id),
        PublicChannelUsername := OptionalText(username),
        PublicChannelTitle := OptionalText(title)]
  }

  function AddGroup(d: Draft, id: int, title: Option<string>): Draft {
    d[PrivateGroupId := IntValue(id)][PrivateGroupTitle := OptionalText(title)]
  }

  // ---------------------------------------------------------------------
  // Step 1: the public channel

  predicate IsForwardedChannel(msg: Message) {
    msg.forwardFromChat.Some? && msg.forwardFromChat.value.kind == Channel
  }

  /** `message.text and message.text.startswith('@')` */
  predicate IsHandleText(msg: Message) {
    msg.text.Some? && StartsWith(msg.text.value, '@')
  }

  /** A chat the channel step would bind, with the username it would store. */
  datatype Candidate = Candidate(chat: Chat, username: Option<string>)

  /**
   * The chat the channel step considers: the forwarding channel itself, or
   * whatever the lookup of the `@handle` text returns (the handle is stored
   * without its '@', whatever username the platform reports).
   */
  function ChannelCandidate(msg: Message, world: World): Option<Candidate> {
    if IsForwardedChannel(msg) then
      Some(Candidate(msg.forwardFromChat.value, msg.forwardFromChat.value.username))
    else if IsHandleText(msg) then
      match world.getChat(ByHandle(msg.text.value))
      case Returned(chat) => Some(Candidate(chat, Some(msg.text.value[1..])))
      case Raised => None
    else None
  }

  /** The candidate is a channel in which the bot is an administrator or the creator. */
  predicate ChannelAccepted(msg: Message, world: World) {
    match ChannelCandidate(msg, world)
    case None => false
    case Some(c) =>
      && c.chat.kind == Channel
      && world.getChatMember(c.chat.id).Returned?
      && IsAdmin(world.getChatMember(c.chat.id).value)
  }

  /** `portal_setup_start`: prompts for the channel and leaves any old draft in place. */
  function StartStep(draft: Option<Draft>): Outcome {
    Outcome(PublicChannel, draft, SetupPrompt, None)
  }

  /** `portal_cancel`: drops the draft and ends the conversation. */
  function CancelStep(): Outcome {
    Outcome(End, None, Cancelled, None)
  }

  /** `portal_public_channel`. */
  function ChannelStep(draft: Option<Draft>, msg: Message, world: World): (o: Outcome)
    ensures o.request.None?
    ensures o.next == PrivateGroup <==> ChannelAccepted(msg, world)
    ensures o.next != PrivateGroup ==> o.next == PublicChannel && o.draft == draft
    ensures o.next == PrivateGroup ==>
              && ChannelCandidate(msg, world).Some?
              && var c := ChannelCandidate(msg, world).value;
              && o.draft == Some(ChannelDraft(c.chat.id, c.username, c.chat.title))
              && o.reply == Verified(c.chat.title)
    ensures o.reply == InvalidInput <==> !IsForwardedChannel(msg) && !IsHandleText(msg)
    ensures o.reply == WrongChatType <==>
              ChannelCandidate(msg, world).Some? && ChannelCandidate(msg, world).value.chat.kind != Channel
    ensures o.reply == NotAdmin <==>
              && ChannelCandidate(msg, world).Some?
              && var c := ChannelCandidate(msg, world).value;
              && c.chat.kind == Channel
              && world.getChatMember(c.chat.id).Returned?
              && !IsAdmin(world.getChatMember(c.chat.id).value)
  {
    if IsForwardedChannel(msg) then
      var channel := msg.forwardFromChat.value;
      match world.getChatMember(channel.id)
      case Raised => Outcome(PublicChannel, draft, AdminCheckFailed, None)
      case Returned(member) =>
        if !IsAdmin(member) then Outcome(PublicChannel, draft, NotAdmin, None)
        else Outcome(PrivateGroup, Some(ChannelDraft(channel.id, channel.username, channel.title)),
                     Verified(channel.title), None)
    else if IsHandleText(msg) then
      var username := msg.text.value[1..];
      assert "@" + username == msg.text.value;
      match world.getChat(ByHandle("@" + username))
      case Raised => Outcome(PublicChannel, draft, ChatNotFound, None)
      case Returned(channel) =>
        if channel.kind != Channel then Outcome(PublicChannel, draft, WrongChatType, None)
        else match world.getChatMember(channel.id)
          case Raised => Outcome(PublicChannel, draft, ChatNotFound, None)
          case Returned(member) =>
            if !IsAdmin(member) then Outcome(PublicChannel, draft, NotAdmin, None)
            else Outcome(PrivateGroup, Some(ChannelDraft(channel.id, Some(username), channel.title)),
                         Verified(channel.title), None)
    else Outcome(PublicChannel, draft, InvalidInput, None)
  }

  // ---------------------------------------------------------------------
  // Step 2: the private group

  predicate IsForwardedGroup(msg: Message) {
    msg.forwardFromChat.Some? && IsGroupKind(msg.forwardFromChat.value.kind)
  }

  /** The group text with one leading '@' removed. */
  function GroupIdentifier(text: string): string {
    if StartsWith(text, '@') then text[1..] else text
  }

  /**
   * The lookup the group step makes for a text message: by integer id when
   * the identifier starts with '-' (None when `int()` rejects it), otherwise
   * by '@' followed by the identifier.
   */
  function GroupQuery(text: string): (q: Option<ChatQuery>)
    ensures !StartsWith(GroupIdentifier(text), '-') ==> q == Some(ByHandle("@" + GroupIdentifier(text)))
    ensures StartsWith(GroupIdentifier(text), '-') ==>
              (q.Some? <==> PyInt.ParseInt(GroupIdentifier(text)).Some?) &&
              (q.Some? ==> q.value == ById(PyInt.ParseInt(GroupIdentifier(text)).value))
    ensures q.Some? && q.value.ByHandle? ==>
              StartsWith(q.value.handle, '@') && !StartsWith(q.value.handle[1..], '-')
    ensures q.Some? && q.value.ById? ==> q.value.id <= 0
    ensures q.None? ==> StartsWith(GroupIdentifier(text), '-')
  {
    var ident := GroupIdentifier(text);
    if StartsWith(ident, '-') then
      match PyInt.ParseInt(ident)
      case Some(n) => Some(ById(n))
      case None => None
    else
      assert ("@" + ident)[1..] == ident;
      Some(ByHandle("@" + ident))
  }

  /** The chat the group step considers: the forwarding group, or the looked-up chat. */
  function GroupCandidate(msg: Message, world: World): Option<Chat> {
    if IsForwardedGroup(msg) then Some(msg.forwardFromChat.value)
    else if HasText(msg) then
      match GroupQuery(msg.text.value)
      case None => None
      case Some(q) =>
        match world.getChat(q)
        case Returned(chat) => Some(chat)
        case Raised => None
    else None
  }

  /** The bot is an administrator or the creator in the chat and may invite users. */
  predicate MayInvite(world: World, chat: Chat) {
    && world.getChatMember(chat.id).Returned?
    && IsAdmin(world.getChatMember(chat.id).value)
    && world.getChatMember(chat.id).value.canInviteUsers
  }

  predicate GroupAccepted(msg: Message, world: World) {
    match GroupCandidate(msg, world)
    case None => false
    case Some(g) => IsGroupKind(g.kind) && MayInvite(world, g)
  }

  /**
   * The forwarded-group branch writes into the draft outside its exception
   * handler, so the draft must exist whenever that branch reaches the write.
   */
  predicate GroupStepSafe(draft: Option<Draft>, msg: Message, world: World) {
    draft.Some? || !(IsForwardedGroup(msg) && MayInvite(world, msg.forwardFromChat.value))
  }

  /** `portal_private_group`. */
  function GroupStep(draft: Option<Draft>, msg: Message, world: World): (o: Outcome)
    requires GroupStepSafe(draft, msg, world)
    ensures o.request.None?
    ensures o.next == WelcomeMessage <==> draft.Some? && GroupAccepted(msg, world)
    ensures o.next != WelcomeMessage ==> o.next == PrivateGroup && o.draft == draft
    ensures o.next == WelcomeMessage ==>
              && draft.Some? && o.draft.Some? && GroupCandidate(msg, world).Some?
              && var g := GroupCandidate(msg, world).value;
              && o.draft.value.Keys == draft.value.Keys + GroupKeys
              && o.draft.value[PrivateGroupId] == IntValue(g.id)
              && o.draft.value[PrivateGroupTitle] == OptionalText(g.title)
              && (forall k :: k in draft.value && k !in GroupKeys ==> o.draft.value[k] == draft.value[k])
              && o.reply == Verified(g.title)
    ensures o.reply == InvalidInput <==> !IsForwardedGroup(msg) && !HasText(msg)
    ensures o.reply == WrongChatType <==>
              GroupCandidate(msg, world).Some? && !IsGroupKind(GroupCandidate(msg, world).value.kind)
    ensures o.reply == NotAdmin <==>
              && GroupCandidate(msg, world).Some?
              && var g := GroupCandidate(msg, world).value;
              && IsGroupKind(g.kind)
              && world.getChatMember(g.id).Returned?
              && !IsAdmin(world.getChatMember(g.id).value)
    ensures o.reply == NoInvitePermission <==>
              && GroupCandidate(msg, world).Some?
              && var g := GroupCandidate(msg, world).value;
              && IsGroupKind(g.kind)
              && world.getChatMember(g.id).Returned?
              && IsAdmin(world.getChatMember(g.id).value)
              && !world.getChatMember(g.id).value.canInviteUsers
  {
    if IsForwardedGroup(msg) then
      var group := msg.forwardFromChat.value;
      match world.getChatMember(group.id)
      case Raised => Outcome(PrivateGroup, draft, AdminCheckFailed, None)
      case Returned(member) =>
        if !IsAdmin(member) then Outcome(PrivateGroup, draft, NotAdmin, None)
        else if !member.canInviteUsers then Outcome(PrivateGroup, draft, NoInvitePermission, None)
        else Outcome(WelcomeMessage, Some(AddGroup(draft.value, group.id, group.title)), Verified(group.title), None)
    else if HasText(msg) then
      match GroupQuery(msg.text.value)
      case None => Outcome(PrivateGroup, draft, ChatNotFound, None)  // int() raised inside the try
      case Some(query) =>
        match world.getChat(query)
        case Raised => Outcome(PrivateGroup, draft, ChatNotFound, None)
        case Returned(group) =>
          if !IsGroupKind(group.kind) then Outcome(PrivateGroup, draft, WrongChatType, None)
          else match world.getChatMember(group.id)
            case Raised => Outcome(PrivateGroup, draft, ChatNotFound, None)
            case Returned(member) =>
              if !IsAdmin(member) then Outcome(PrivateGroup, draft, NotAdmin, None)
              else if !member.canInviteUsers then Outcome(PrivateGroup, draft, NoInvitePermission, None)
              // a missing draft makes the write raise inside the try: caught like a failed lookup
              else if draft.None? then Outcome(PrivateGroup, draft, ChatNotFound, None)
              else Outcome(WelcomeMessage, Some(AddGroup(draft.value, group.id, group.title)), Verified(group.title), None)
    else Outcome(PrivateGroup, draft, InvalidInput, None)
  }

  // ---------------------------------------------------------------------
  // Step 3: the welcome message

  /** `setup_data` is truthy: the entry exists and is not an empty dictionary. */
  predicate HasSetupData(draft: Option<Draft>) {
    draft.Some? && draft.value != map[]
  }

  /** The welcome step indexes the draft without checking the keys exist. */
  predicate WelcomeStepSafe(draft: Option<Draft>, world: World) {
    HasSetupData(draft) && world.portalService.Some? ==> RequestKeys <= draft.value.Keys
  }

  /** `portal_welcome_message`. */
  function WelcomeStep(draft: Option<Draft>, msg: Message, world: World, ownerId: int): (o: Outcome)
    requires WelcomeStepSafe(draft, world)
    ensures o.next == End
    ensures o.request.Some? <==> HasSetupData(draft) && world.portalService.Some?
    ensures o.request.None? ==> o.draft == draft
    ensures o.request.Some? ==> o.draft.None?
    ensures !HasSetupData(draft) ==> o.reply == SetupDataLost
    ensures HasSetupData(draft) && world.portalService.None? ==> o.reply == ServiceUnavailable
    ensures o.request.Some? ==>
              && draft.Some? && RequestKeys <= draft.value.Keys
              && var r := o.request.value;
              && r.ownerId == ownerId
              && r.publicChannelId == draft.value[PublicChannelId]
              && r.publicChannelUsername == draft.value[PublicChannelUsername]
              && r.privateGroupId == draft.value[PrivateGroupId]
              && r.privateGroupTitle == draft.value[PrivateGroupTitle]
              && (msg.text == Some("/skip") ==> r.welcomeMessage.None?)
              && (msg.text != Some("/skip") ==> r.welcomeMessage == msg.text)
    ensures o.request.Some? && world.portalService.Some? ==>
              match world.portalService.value(o.request.value)
              case Some(id) =>
                o.reply == PortalCreated(id, o.request.value.publicChannelUsername, o.request.value.privateGroupTitle)
              case None => o.reply == CreationFailed
  {
    if !HasSetupData(draft) then Outcome(End, draft, SetupDataLost, None)
    else
      var welcome := if msg.text.Some? && msg.text.value == "/skip" then None else msg.text;
      match world.portalService
      case None => Outcome(End, draft, ServiceUnavailable, None)
      case Some(createPortal) =>
        var d := draft.value;
        var request := PortalRequest(ownerId, d[PublicChannelId], d[PublicChannelUsername],
                                     d[PrivateGroupId], d[PrivateGroupTitle], welcome);
        match createPortal(request)
        case Some(id) => Outcome(End, None, PortalCreated(id, d[PublicChannelUsername], d[PrivateGroupTitle]), Some(request))
        case None => Outcome(End, None, CreationFailed, Some(request))
  }

  // ---------------------------------------------------------------------
  // The handlers over the user's stored draft

  /** One user's conversation storage: the 'portal_setup' entry of the user's data. */
  class PortalSetup {
    /** The 'portal_setup' entry; None while the key is absent. */
    var draft: Option<Draft>

    constructor ()
      ensures draft.None?
    {
      draft := None;
    }

    /** `portal_setup_start`: prompts for the channel; the draft is left as it is. */
    method SetupStart() returns (next: State, reply: Reply)
      ensures next == PublicChannel && reply == SetupPrompt
      ensures Outcome(next, draft, reply, None) == StartStep(draft)
    {
      next, reply := PublicChannel, SetupPrompt;
    }

    /** `portal_public_channel`. */
    method OnPublicChannel(msg: Message, world: World) returns (next: State, reply: Reply)
      modifies this
      ensures Outcome(next, draft, reply, None) == ChannelStep(old(draft), msg, world)
    {
      if IsForwardedChannel(msg) {
        var channel := msg.forwardFromChat.value;
        var member := world.getChatMember(channel.id);
        if member.Raised? {
          return PublicChannel, AdminCheckFailed;
        }
        if !IsAdmin(member.value) {
          return PublicChannel, NotAdmin;
        }
        draft := Some(ChannelDraft(channel.id, channel.username, channel.title));
        return PrivateGroup, Verified(channel.title);
      } else if IsHandleText(msg) {
        var username := msg.text.value[1..];
        var channel := world.getChat(ByHandle("@" + username));
        if channel.Raised? {
          return PublicChannel, ChatNotFound;
        }
        if channel.value.kind != Channel {
          return PublicChannel, WrongChatType;
        }
        var member := world.getChatMember(channel.value.id);
        if member.Raised? {
          return PublicChannel, ChatNotFound;
        }
        if !IsAdmin(member.value) {
          return PublicChannel, NotAdmin;
        }
        draft := Some(ChannelDraft(channel.value.id, Some(username), channel.value.title));
        return PrivateGroup, Verified(channel.value.title);
      } else {
        return PublicChannel, InvalidInput;
      }
    }

    /** `portal_private_group`. */
    method OnPrivateGroup(msg: Message, world: World) returns (next: State, reply: Reply)
      requires GroupStepSafe(draft, msg, world)
      modifies this
      ensures Outcome(next, draft, reply, None) == GroupStep(old(draft), msg, world)
    {
      if IsForwardedGroup(msg) {
        var group := msg.forwardFromChat.value;
        var member := world.getChatMember(group.id);
        if member.Raised? {
          return PrivateGroup, AdminCheckFailed;
        }
        if !IsAdmin(member.value) {
          return PrivateGroup, NotAdmin;
        }
        if !member.value.canInviteUsers {
          return PrivateGroup, NoInvitePermission;
        }
        draft := Some(draft.value[PrivateGroupId := IntValue(group.id)]);
        draft := Some(draft.value[PrivateGroupTitle := OptionalText(group.title)]);
        return WelcomeMessage, Verified(group.title);
      } else if HasText(msg) {
        var identifier := msg.text.value;
        if StartsWith(identifier, '@') {
          identifier := identifier[1..];
        }
        var query: ChatQuery;
        if StartsWith(identifier, '-') {
          var id := PyInt.ParseInt(identifier);
          if id.None? {
            return PrivateGroup, ChatNotFound;
          }
          query := ById(id.value);
        } else {
          query := ByHandle("@" + identifier);
        }
        var group := world.getChat(query);
        if group.Raised? {
          return PrivateGroup, ChatNotFound;
        }
        if !IsGroupKind(group.value.kind) {
          return PrivateGroup, WrongChatType;
        }
        var member := world.getChatMember(group.value.id);
        if member.Raised? {
          return PrivateGroup, ChatNotFound;
        }
        if !IsAdmin(member.value) {
          return PrivateGroup, NotAdmin;
        }
        if !member.value.canInviteUsers {
          return PrivateGroup, NoInvitePermission;
        }
        if draft.None? {
          return PrivateGroup, ChatNotFound;
        }
        draft := Some(draft.value[PrivateGroupId := IntValue(group.value.id)]);
        draft := Some(draft.value[PrivateGroupTitle := OptionalText(group.value.title)]);
        return WelcomeMessage, Verified(group.value.title);
      } else {
        return PrivateGroup, InvalidInput;
      }
    }

    /** `portal_welcome_message`; `request` is the `create_portal` call made, if any. */
    method OnWelcomeMessage(msg: Message, world: World, ownerId: int)
      returns (next: State, reply: Reply, request: Option<PortalRequest>)
      requires WelcomeStepSafe(draft, world)
      modifies this
      ensures Outcome(next, draft, reply, request) == WelcomeStep(old(draft), msg, world, ownerId)
    {
      if !HasSetupData(draft) {
        return End, SetupDataLost, None;
      }
      var welcome: Option<string>;
      if msg.text.Some? && msg.text.value == "/skip" {
        welcome := None;
      } else {
        welcome := msg.text;
      }
      if world.portalService.None? {
        return End, ServiceUnavailable, None;
      }
      var setup := draft.value;
      var call := PortalRequest(ownerId, setup[PublicChannelId], setup[PublicChannelUsername],
                                setup[PrivateGroupId], setup[PrivateGroupTitle], welcome);
      var portalId := world.portalService.value(call);
      if portalId.Some? {
        reply := PortalCreated(portalId.value, setup[PublicChannelUsername], setup[PrivateGroupTitle]);
      } else {
        reply := CreationFailed;
      }
      draft := None;
      next, request := End, Some(call);
    }

    /** `portal_cancel`: drops the draft and ends the conversation. */
    method Cancel() returns (next: State, reply: Reply)
      modifies this
      ensures next == End && reply == Cancelled && draft.None?
      ensures Outcome(next, draft, reply, None) == CancelStep()
    {
      draft := None;
      next, reply := End, Cancelled;
    }
  }
}
