/**
 * The application store of the chat client: users, channels, messages, the
 * signed-in user and the selected channel. Every action is a function from the
 * current state to the next one; the store container that holds the state is
 * modelled in module Voice, where the voice session writes into it.
 */
module Store {
  import opened Wrappers

  datatype User = User(id: string, name: string, isOnline: bool, isSpeaking: bool)

  datatype ChannelType = Voice | Text

  datatype Channel = Channel(id: string, name: string, kind: ChannelType, participants: seq<string>)

  /** `timestamp` is a JavaScript number; the model keeps it as an integer. */
  datatype Message = Message(id: string, userId: string, channelId: string, content: string, timestamp: int)

  datatype AppState = AppState(
    currentUser: Option<User>,
    users: seq<User>,
    channels: seq<Channel>,
    messages: seq<Message>,
    selectedChannel: Option<string>)

  /** Number of channels of the given type. */
  function CountOfType(cs: seq<Channel>, t: ChannelType): nat {
    if cs == [] then 0 else (if cs[0].kind == t then 1 else 0) + CountOfType(cs[1..], t)
  }

  /** The state the store is created with: four empty channels, two for voice then two for text. */
  function InitialState(): (s: AppState)
    ensures s.currentUser == None && s.selectedChannel == None
    ensures s.users == [] && s.messages == []
    ensures |s.channels| == 4
    ensures forall i :: 0 <= i < |s.channels| ==> s.channels[i].participants == []
    ensures forall i, j :: 0 <= i < j < |s.channels| ==> s.channels[i].id != s.channels[j].id
    ensures s.channels[0].id == "1" && s.channels[1].id == "2" && s.channels[2].id == "3" && s.channels[3].id == "4"
    ensures CountOfType(s.channels, Voice) == 2 && CountOfType(s.channels, Text) == 2
    ensures forall i :: 0 <= i < |s.channels| ==> (s.channels[i].kind == Voice <==> i < 2)
  {
    AppState(
      None,
      [],
      [ Channel("1", "\U{1F3AE} Gaming", Voice, []),
        Channel("2", "\U{1F3B5} Music", Voice, []),
        Channel("3", "\U{1F4AC} General", Text, []),
        Channel("4", "\U{1F91D} Welcome", Text, []) ],
      [],
      None)
  }

  /** `setCurrentUser(user)`: only `currentUser` changes. */
  function SetCurrentUser(s: AppState, user: Option<User>): (r: AppState)
    ensures r.currentUser == user
    ensures r.users == s.users && r.channels == s.channels
    ensures r.messages == s.messages && r.selectedChannel == s.selectedChannel
  {
    s.(currentUser := user)
  }

  /** `addChannel(channel)`: the channel list grows by `channel` at its end. */
  function AddChannel(s: AppState, channel: Channel): (r: AppState)
    ensures |r.channels| == |s.channels| + 1
    ensures r.channels[..|s.channels|] == s.channels && r.channels[|s.channels|] == channel
    ensures r.currentUser == s.currentUser && r.users == s.users
    ensures r.messages == s.messages && r.selectedChannel == s.selectedChannel
  {
    s.(channels := s.channels + [channel])
  }

  /** `addMessage(message)`: the message list grows by `message` at its end. */
  function AddMessage(s: AppState, message: Message): (r: AppState)
    ensures |r.messages| == |s.messages| + 1
    ensures r.messages[..|s.messages|] == s.messages && r.messages[|s.messages|] == message
    ensures r.currentUser == s.currentUser && r.users == s.users
    ensures r.channels == s.channels && r.selectedChannel == s.selectedChannel
  {
    s.(messages := s.messages + [message])
  }

  /** `setSelectedChannel(channelId)`: only `selectedChannel` changes. */
  function SetSelectedChannel(s: AppState, channelId: string): (r: AppState)
    ensures r.selectedChannel == Some(channelId)
    ensures r.currentUser == s.currentUser && r.users == s.users
    ensures r.channels == s.channels && r.messages == s.messages
  {
    s.(selectedChannel := Some(channelId))
  }

  /** The `users.map(...)` of `updateUserStatus`: users whose id is `userId`
      get the two flags; every other user, and every id and name, is kept. */
  function SetStatus(users: seq<User>, userId: string, isOnline: bool, isSpeaking: bool): (r: seq<User>)
    ensures |r| == |users|
    ensures forall i :: 0 <= i < |r| ==> r[i].id == users[i].id && r[i].name == users[i].name
    ensures forall i :: 0 <= i < |r| && users[i].id == userId ==>
      r[i].isOnline == isOnline && r[i].isSpeaking == isSpeaking
    ensures forall i :: 0 <= i < |r| && users[i].id != userId ==> r[i] == users[i]
  {
    if users == [] then []
    else
      var u := users[0];
      [if u.id == userId then u.(isOnline := isOnline, isSpeaking := isSpeaking) else u]
        + SetStatus(users[1..], userId, isOnline, isSpeaking)
  }

  /** `updateUserStatus(userId, isOnline, isSpeaking = false)`; `None` stands
      for the omitted third argument. Only `users` changes. */
  function UpdateUserStatus(s: AppState, userId: string, isOnline: bool, isSpeaking: Option<bool>): (r: AppState)
    ensures |r.users| == |s.users|
    ensures forall i :: 0 <= i < |r.users| ==>
      r.users[i].id == s.users[i].id && r.users[i].name == s.users[i].name
    ensures forall i :: 0 <= i < |r.users| && s.users[i].id == userId ==>
      r.users[i].isOnline == isOnline && r.users[i].isSpeaking == isSpeaking.GetOr(false)
    ensures forall i :: 0 <= i < |r.users| && s.users[i].id != userId ==> r.users[i] == s.users[i]
    ensures r.currentUser == s.currentUser && r.channels == s.channels
    ensures r.messages == s.messages && r.selectedChannel == s.selectedChannel
  {
    s.(users := SetStatus(s.users, userId, isOnline, isSpeaking.GetOr(false)))
  }

  /** Leaving out `isSpeaking` is the same as passing `false`. */
  lemma SpeakingDefaultsToFalse(s: AppState, userId: string, isOnline: bool)
    ensures UpdateUserStatus(s, userId, isOnline, None) == UpdateUserStatus(s, userId, isOnline, Some(false))
  {
  }

  /** An id that no user has leaves the whole state as it was. */
  lemma UnknownUserUnchanged(s: AppState, userId: string, isOnline: bool, isSpeaking: Option<bool>)
    requires forall i :: 0 <= i < |s.users| ==> s.users[i].id != userId
    ensures UpdateUserStatus(s, userId, isOnline, isSpeaking) == s
  {
  }

  /** A second update of the same user overrides the first one. */
  lemma LastUpdateWins(s: AppState, userId: string, on1: bool, sp1: Option<bool>, on2: bool, sp2: Option<bool>)
    ensures UpdateUserStatus(UpdateUserStatus(s, userId, on1, sp1), userId, on2, sp2)
         == UpdateUserStatus(s, userId, on2, sp2)
  {
  }

  /** Applying the same update twice is the same as applying it once. */
  lemma UpdateIdempotent(s: AppState, userId: string, isOnline: bool, isSpeaking: Option<bool>)
    ensures UpdateUserStatus(UpdateUserStatus(s, userId, isOnline, isSpeaking), userId, isOnline, isSpeaking)
         == UpdateUserStatus(s, userId, isOnline, isSpeaking)
  {
    LastUpdateWins(s, userId, isOnline, isSpeaking, isOnline, isSpeaking);
  }

  /** Updates of two different users commute. */
  lemma UpdatesCommute(s: AppState, a: string, onA: bool, spA: Option<bool>, b: string, onB: bool, spB: Option<bool>)
    requires a != b
    ensures UpdateUserStatus(UpdateUserStatus(s, a, onA, spA), b, onB, spB)
         == UpdateUserStatus(UpdateUserStatus(s, b, onB, spB), a, onA, spA)
  {
  }
}
