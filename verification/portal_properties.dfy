/**
 * Properties of the wizard's steps that relate several inputs or several
 * steps: how the group identifier is normalised, the complete wizard path,
 * and concrete conversations.
 */
module PortalProperties {
  import opened Wrappers
  import opened Telegram
  import opened PortalHandlers
  import PyInt

  /** One leading '@' makes no difference to the group lookup. */
  lemma GroupQueryStripsOneAt(ident: string)
    requires !StartsWith(ident, '@')
    ensures GroupQuery("@" + ident) == GroupQuery(ident)
  {
  }

  /** Only one '@' is stripped: "@@name" is looked up as "@@name". */
  lemma GroupQueryStripsOnlyOneAt(name: string)
    ensures GroupQuery("@@" + name) == Some(ByHandle("@@" + name))
  {
    assert ("@@" + name)[1..] == "@" + name;
    assert "@" + ("@" + name) == "@@" + name;
  }

  /** A name that starts with neither '@' nor '-' is looked up as '@' + name. */
  lemma GroupQueryByHandle(name: string)
    requires !StartsWith(name, '@') && !StartsWith(name, '-')
    ensures GroupQuery(name) == Some(ByHandle("@" + name))
    ensures GroupQuery("@" + name) == Some(ByHandle("@" + name))
  {
    GroupQueryStripsOneAt(name);
  }

  /** The decimal spelling of a negative chat id, with or without '@', is looked up by that id. */
  lemma GroupQueryNumericId(id: int)
    requires id < 0
    ensures GroupQuery(PyInt.Show(id)) == Some(ById(id))
    ensures GroupQuery("@" + PyInt.Show(id)) == Some(ById(id))
  {
    PyInt.ParseShowRoundTrip(id);
    GroupQueryStripsOneAt(PyInt.Show(id));
  }

  /**
   * Any '-' followed by decimal digits, with or without '@', is looked up by
   * the integer `int()` reads from it, leading zeros included.
   */
  lemma GroupQueryDecimalId(ident: string)
    requires |ident| > 1 && ident[0] == '-' && PyInt.AllDigits(ident[1..])
    ensures GroupQuery(ident) == Some(ById(0 - PyInt.DigitsValue(ident[1..])))
    ensures GroupQuery("@" + ident) == Some(ById(0 - PyInt.DigitsValue(ident[1..])))
  {
    GroupQueryStripsOneAt(ident);
  }

  /** "-007" is looked up by id -7, as `int("-007")` reads it. */
  lemma LeadingZerosScenario()
    ensures GroupQuery("-007") == Some(ById(-7))
  {
    GroupQueryDecimalId("-007");
    assert "-007"[1..] == "007";
    assert "007"[..2] == "00" && "00"[..1] == "0" && "0"[..0] == [];
  }

  /** A text identifier starting with '-' that `int()` rejects re-prompts and leaves the draft alone. */
  lemma NonNumericIdReprompts(draft: Option<Draft>, text: string, world: World)
    requires StartsWith(GroupIdentifier(text), '-') && PyInt.ParseInt(GroupIdentifier(text)).None?
    ensures var o := GroupStep(draft, Message(None, Some(text)), world);
            o.next == PrivateGroup && o.draft == draft && o.reply == ChatNotFound
  {
  }

  /**
   * Channel accepted, then group accepted, then a welcome text with the
   * service present: `create_portal` receives the channel and group the two
   * earlier steps verified, and the draft is gone.
   */
  lemma WizardHappyPath(stale: Option<Draft>, m1: Message, w1: World, m2: Message, w2: World,
                        m3: Message, w3: World, ownerId: int)
    requires ChannelAccepted(m1, w1) && GroupAccepted(m2, w2) && w3.portalService.Some?
    ensures var o1 := ChannelStep(stale, m1, w1);
            && o1.next == PrivateGroup && o1.draft.Some?
            && var o2 := GroupStep(o1.draft, m2, w2);
            && o2.next == WelcomeMessage
            && var o3 := WelcomeStep(o2.draft, m3, w3, ownerId);
            && var c := ChannelCandidate(m1, w1).value;
            && var g := GroupCandidate(m2, w2).value;
            && o3.next == End && o3.draft.None? && o3.request.Some?
            && o3.request.value.publicChannelId == IntValue(c.chat.id)
            && o3.request.value.publicChannelUsername == OptionalText(c.username)
            && o3.request.value.privateGroupId == IntValue(g.id)
            && o3.request.value.privateGroupTitle == OptionalText(g.title)
  {
  }

  // ---------------------------------------------------------------------
  // Concrete conversations

  const NewsChannel := Chat(-100123, Channel, Some("News_Channel_Official"), Some("News"))

  /** "@news_channel" resolves to a channel where the bot is an administrator. */
  const NewsWorld := World(
    q => if q == ByHandle("@news_channel") then Returned(NewsChannel) else Raised,
    id => if id == -100123 then Returned(ChatMember(Administrator, false)) else Raised,
    None)

  /** The handle is stored as typed, without '@', not as the platform spells it. */
  lemma HandleScenario(stale: Option<Draft>)
    ensures var o := ChannelStep(stale, Message(None, Some("@news_channel")), NewsWorld);
            && o.next == PrivateGroup
            && o.draft == Some(map[PublicChannelId := IntValue(-100123),
                                   PublicChannelUsername := StrValue("news_channel"),
                                   PublicChannelTitle := StrValue("News")])
  {
  }

  /** A forwarded supergroup message where the bot is a plain member is refused. */
  lemma ForwardedSupergroupNotAdmin(draft: Draft)
    ensures var group := Chat(-100777, Supergroup, None, Some("Members"));
            var world := World(q => Raised, id => Returned(ChatMember(Member, true)), None);
            var o := GroupStep(Some(draft), Message(Some(group), None), world);
            o.next == PrivateGroup && o.draft == Some(draft) && o.reply == NotAdmin
  {
  }

  /** A complete draft, the service present, and `create_portal` answering "pid_42". */
  lemma WelcomeCreatedScenario(draft: Draft, ownerId: int)
    requires RequestKeys <= draft.Keys
    ensures var world := World(q => Raised, id => Raised, Some(r => Some("pid_42")));
            var o := WelcomeStep(Some(draft), Message(None, Some("/skip")), world, ownerId);
            && o.next == End && o.draft.None?
            && o.reply.PortalCreated? && o.reply.portalId == "pid_42"
            && o.request.Some? && o.request.value.welcomeMessage.None?
  {
  }

  /** A lost draft ends the conversation without calling `create_portal`. */
  lemma WelcomeDraftMissingScenario(msg: Message, ownerId: int)
    ensures var world := World(q => Raised, id => Raised, Some(r => Some("pid_42")));
            var o := WelcomeStep(None, msg, world, ownerId);
            o.next == End && o.request.None? && o.reply == SetupDataLost
  {
  }
}
