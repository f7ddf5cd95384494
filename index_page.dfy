/**
 * The `Index` page: the server and channel catalogue it is built on, switching servers, and
 * the fallbacks used when the active channel is not in the catalogue.
 */
module IndexPage {
  import opened ChatView

  datatype ServerEntry = ServerEntry(name: string, channels: seq<string>)
  datatype ChannelEntry = ChannelEntry(name: string, kind: string)

  /** The page's server catalogue; "home" (the direct messages) has no channels. */
  const Servers: map<string, ServerEntry> := map[
    "home" := ServerEntry("Личные сообщения", []),
    "1" := ServerEntry("Gaming Server", ["general", "random", "gaming", "voice1", "voice2"]),
    "2" := ServerEntry("Work Space", ["general", "announcements", "projects"]),
    "3" := ServerEntry("Friends", ["general", "memes", "voice-chat"])
  ]

  /** The page's channel catalogue. */
  const Channels: map<string, ChannelEntry> := map[
    "general" := ChannelEntry("общий", "text"),
    "random" := ChannelEntry("случайное", "text"),
    "gaming" := ChannelEntry("игры", "text"),
    "voice1" := ChannelEntry("Общий голосовой", "voice"),
    "voice2" := ChannelEntry("Игры", "voice"),
    "announcements" := ChannelEntry("объявления", "text"),
    "projects" := ChannelEntry("проекты", "text"),
    "memes" := ChannelEntry("мемы", "text"),
    "voice-chat" := ChannelEntry("Голосовой чат", "voice")
  ]

  /** Every channel a server lists is in the channel catalogue. */
  predicate CatalogueClosed(servers: map<string, ServerEntry>, channels: map<string, ChannelEntry>) {
    forall s, i :: s in servers && 0 <= i < |servers[s].channels| ==> servers[s].channels[i] in channels
  }

  /** The page's catalogue is closed, and the page starts on a known server and channel. */
  lemma PageCatalogueClosed()
    ensures CatalogueClosed(Servers, Channels)
    ensures InitialPage.activeServer in Servers && InitialPage.activeChannel in Channels
  {
  }

  /** The active server and channel ids. */
  datatype Page = Page(activeServer: string, activeChannel: string)

  const InitialPage := Page("1", "general")

  /**
   * `handleServerChange(serverId)`: the server becomes active; a known server with channels
   * also makes its first channel active, and otherwise the active channel stays.
   */
  function ServerChange(p: Page, serverId: string, servers: map<string, ServerEntry>): (r: Page)
    ensures r.activeServer == serverId
    ensures serverId in servers && servers[serverId].channels != [] ==>
      r.activeChannel == servers[serverId].channels[0]
    ensures serverId !in servers || servers[serverId].channels == [] ==> r.activeChannel == p.activeChannel
  {
    if serverId in servers && |servers[serverId].channels| > 0 then
      Page(serverId, servers[serverId].channels[0])
    else
      p.(activeServer := serverId)
  }

  /** Switching servers never leaves the catalogue: a known active channel stays known. */
  lemma ServerChangeKeepsKnownChannel(p: Page, serverId: string,
                                      servers: map<string, ServerEntry>, channels: map<string, ChannelEntry>)
    requires CatalogueClosed(servers, channels) && p.activeChannel in channels
    ensures ServerChange(p, serverId, servers).activeChannel in channels
  {
    if serverId in servers && |servers[serverId].channels| > 0 {
      assert servers[serverId].channels[0] in channels;
    }
  }

  /** The header's server name: the active server's name when it is known and non-empty, else "Server". */
  function ServerName(p: Page, servers: map<string, ServerEntry>): (r: string)
    ensures p.activeServer !in servers ==> r == "Server"
    ensures p.activeServer in servers && servers[p.activeServer].name != "" ==> r == servers[p.activeServer].name
  {
    if p.activeServer in servers && servers[p.activeServer].name != "" then servers[p.activeServer].name else "Server"
  }

  /** The name handed to the chat area: the channel's, or "канал" for an unknown (or unnamed) channel. */
  function ChannelName(p: Page, channels: map<string, ChannelEntry>): (r: string)
    ensures p.activeChannel !in channels ==> r == "канал"
    ensures p.activeChannel in channels && channels[p.activeChannel].name != "" ==> r == channels[p.activeChannel].name
  {
    if p.activeChannel in channels && channels[p.activeChannel].name != "" then channels[p.activeChannel].name else "канал"
  }

  /** The type handed to the chat area: the channel's, or "text" for an unknown (or untyped) channel. */
  function ChannelType(p: Page, channels: map<string, ChannelEntry>): (r: string)
    ensures p.activeChannel !in channels ==> r == "text"
    ensures p.activeChannel in channels && channels[p.activeChannel].kind != "" ==> r == channels[p.activeChannel].kind
  {
    if p.activeChannel in channels && channels[p.activeChannel].kind != "" then channels[p.activeChannel].kind else "text"
  }

  /** The member list is shown only beside a known text channel. */
  predicate ShowUserList(p: Page, channels: map<string, ChannelEntry>) {
    p.activeChannel in channels && channels[p.activeChannel].kind == "text"
  }

  /**
   * The page's layout: the member list appears only beside the message list, never beside the
   * voice placeholder; an unknown channel gets the message list (as a text channel named
   * "канал") but no member list.
   */
  lemma UserListBesideMessages(p: Page, channels: map<string, ChannelEntry>)
    ensures ShowUserList(p, channels) ==> ViewFor(ChannelName(p, channels), ChannelType(p, channels)).MessageList?
    ensures p.activeChannel !in channels ==>
      ViewFor(ChannelName(p, channels), ChannelType(p, channels)) == MessageList("канал") && !ShowUserList(p, channels)
  {
  }

  /** On this page's catalogue, switching servers keeps a known active channel known. */
  lemma CatalogueServerChange(p: Page, serverId: string)
    requires p.activeChannel in Channels
    ensures ServerChange(p, serverId, Servers).activeChannel in Channels
  {
    PageCatalogueClosed();
    ServerChangeKeepsKnownChannel(p, serverId, Servers, Channels);
  }
}
