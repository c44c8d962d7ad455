/** The profile dashboard (src/car/profile.jsx): the guarded fetch of the
    profile, the user's cars and the conversations, the chat state fed by
    the message subscription, conversation selection, the send guard with
    its optimistic append, and the section visibility toggles. The chat
    transport is left out: a connection is a flag, a publish is the message
    returned. */
module Profile {
  import opened Js
  import opened Catalog
  import opened Session

  /** The profile record; `initialProfileState` has no id and empty strings. */
  datatype ProfileData = ProfileData(id: Option<int>, name: string, email: string, phone: string, avatarPath: string)

  const InitialProfile := ProfileData(None, "", "", "", "")

  /** A conversation partner: the user object `activeChat` holds. */
  datatype Contact = Contact(id: int, name: string)

  /** A chat message. Inbound messages are whatever the server sends, so
      the sender may be absent; `timestamp` is only set on the local copy
      of a message this page sends. */
  datatype ChatMessage = ChatMessage(senderId: Option<int>, recipientId: int, content: string, timestamp: Option<string>)

  /** An answer to one of the dashboard's three requests: its `ok` flag
      and its decoded body. */
  datatype Response<T> = Response(ok: bool, body: T)

  /** What `Promise.all` over the three requests yields: the message of the
      rejection that settled first, or the three responses. */
  datatype Dashboard =
    | AnyRejected(message: string)
    | AllAnswered(profile: Response<ProfileData>, cars: Response<seq<Car>>, conversations: Response<seq<Contact>>)

  /** The message thrown for the first response that is not ok, checking
      the profile, then the cars, then the conversations. */
  function DashboardError(d: Dashboard): (r: Option<string>)
    requires d.AllAnswered?
    ensures !d.profile.ok ==> r == Some("Could not fetch profile data.")
    ensures d.profile.ok && !d.cars.ok ==> r == Some("Could not fetch your car listings.")
    ensures d.profile.ok && d.cars.ok && !d.conversations.ok ==> r == Some("Could not fetch conversations.")
    ensures r.None? <==> d.profile.ok && d.cars.ok && d.conversations.ok
  {
    if !d.profile.ok then Some("Could not fetch profile data.")
    else if !d.cars.ok then Some("Could not fetch your car listings.")
    else if !d.conversations.ok then Some("Could not fetch conversations.")
    else None
  }

  /** `!prev[section]` written back under `section`: a section missing from
      the dictionary reads as undefined, so its first toggle makes it true. */
  function Toggle(sections: map<string, bool>, section: string): (r: map<string, bool>)
    ensures section in r
    ensures forall s :: s != section ==> (s in r <==> s in sections)
  {
    sections[section := !(section in sections && sections[section])]
  }

  /** Toggling a section flips exactly that section; toggling it again
      restores the dictionary when the section was present, and leaves it
      hidden when it was missing. */
  lemma {:induction false} ToggleSpec(sections: map<string, bool>, section: string)
    ensures section in sections ==> Toggle(sections, section)[section] == !sections[section]
    ensures section !in sections ==> Toggle(sections, section)[section]
    ensures forall s :: s != section && s in sections ==> Toggle(sections, section)[s] == sections[s]
    ensures section in sections ==> Toggle(Toggle(sections, section), section) == sections
    ensures section !in sections ==> Toggle(Toggle(sections, section), section) == sections[section := false]
  {
  }

  /** The guard of sendMessage: the input has a character that trim keeps,
      a client exists and is connected, and a chat is active. */
  predicate CanSend(inputText: string, hasClient: bool, connected: bool, activeChat: Option<Contact>) {
    Trim(inputText) != "" && hasClient && connected && activeChat.Some?
  }

  /** The guard's text test holds exactly when the input is not all white
      space. */
  lemma {:induction false} CanSendIff(inputText: string, hasClient: bool, connected: bool, activeChat: Option<Contact>)
    ensures CanSend(inputText, hasClient, connected, activeChat) <==>
      (exists k :: 0 <= k < |inputText| && !IsSpace(inputText[k])) && hasClient && connected && activeChat.Some?
  {
    TrimNonEmptyIff(inputText);
  }

  /** The state of the dashboard. `hasClient` stands for `stompClient`
      being set and `connected` for `isConnected`. */
  class ProfilePage {
    var profileData: ProfileData
    var myCars: seq<Car>
    var loading: bool
    var conversations: seq<Contact>
    var activeChat: Option<Contact>
    var messages: seq<ChatMessage>
    var hasClient: bool
    var connected: bool
    var inputText: string
    var visibleSections: map<string, bool>
    var error: Option<string>

    constructor ()
      ensures profileData == InitialProfile && myCars == [] && loading && conversations == []
      ensures activeChat.None? && messages == [] && !hasClient && !connected && inputText == ""
      ensures visibleSections == map["conversations" := true, "chat" := true, "listings" := true]
      ensures error.None?
    {
      profileData, myCars, loading, conversations := InitialProfile, [], true, [];
      activeChat, messages, hasClient, connected, inputText := None, [], false, false, "";
      visibleSections := map["conversations" := true, "chat" := true, "listings" := true];
      error := None;
    }

    /** The data-fetching effect. Without a token the error is set and
        nothing is requested. Otherwise the error is cleared; a rejection,
        or the first response that is not ok, becomes the error, and only
        when all three are ok are the profile, cars and conversations set.
        Loading ends either way. */
    method LoadDashboard(token: Option<string>, d: Dashboard) returns (requested: bool)
      modifies this`profileData, this`myCars, this`conversations, this`loading, this`error
      ensures requested <==> Present(token)
      ensures !loading
      ensures !Present(token) ==> error == Some("You must be logged in to view your profile.")
      ensures Present(token) && d.AnyRejected? ==> error == Some(d.message)
      ensures Present(token) && d.AllAnswered? ==> error == DashboardError(d)
      ensures Present(token) && d.AllAnswered? && DashboardError(d).None? ==>
        profileData == d.profile.body && myCars == d.cars.body && conversations == d.conversations.body
      ensures !(Present(token) && d.AllAnswered? && DashboardError(d).None?) ==>
        profileData == old(profileData) && myCars == old(myCars) && conversations == old(conversations)
    {
      if !Present(token) {
        loading := false;
        error := Some("You must be logged in to view your profile.");
        return false;
      }
      requested := true;
      loading := true;
      error := None;
      match d {
        case AnyRejected(message) =>
          error := Some(message);
        case AllAnswered(profile, cars, convos) =>
          var problem := DashboardError(d);
          if problem.Some? {
            error := problem;
          } else {
            profileData := profile.body;
            myCars := cars.body;
            conversations := convos.body;
          }
      }
      loading := false;
    }

    /** The connection effect: a client is made only with a token and a
        user; it is not connected until `onConnect` runs. */
    method StartClient(token: Option<string>, user: Option<User>)
      modifies this`hasClient
      ensures hasClient == (old(hasClient) || (Present(token) && user.Some?))
    {
      if Present(token) && user.Some? {
        hasClient := true;
      }
    }

    method OnConnect()
      modifies this`connected
      ensures connected
    {
      connected := true;
    }

    method OnDisconnect()
      modifies this`connected
      ensures !connected
    {
      connected := false;
    }

    /** The subscription handler: an inbound message is shown only when a
        chat is active and the message comes from its contact. The active
        chat itself is left as it is. */
    method OnMessageReceived(received: ChatMessage)
      modifies this`messages
      ensures activeChat.Some? && received.senderId == Some(activeChat.value.id) ==>
        messages == old(messages) + [received]
      ensures !(activeChat.Some? && received.senderId == Some(activeChat.value.id)) ==>
        messages == old(messages)
    {
      if activeChat.Some? && received.senderId == Some(activeChat.value.id) {
        messages := messages + [received];
      }
    }

    /** handleSelectConversation: choosing the contact already active does
        nothing. Otherwise the contact becomes active and the messages are
        cleared, then replaced by the fetched history; a failed fetch
        leaves them empty and sets the error. */
    method SelectConversation(contact: Contact, history: Fetched<seq<ChatMessage>>) returns (requested: bool)
      modifies this`activeChat, this`messages, this`error
      ensures requested <==> !(old(activeChat).Some? && old(activeChat).value.id == contact.id)
      ensures !requested ==> activeChat == old(activeChat) && messages == old(messages) && error == old(error)
      ensures requested ==> activeChat == Some(contact)
      ensures requested && history.Received? ==> messages == history.body && error == old(error)
      ensures requested && !history.Received? ==>
        messages == [] && error == Some(FailureMessage(history, "Failed to fetch chat history."))
    {
      if activeChat.Some? && activeChat.value.id == contact.id {
        return false;
      }
      requested := true;
      activeChat := Some(contact);
      messages := [];
      if history.Received? {
        messages := history.body;
      } else {
        error := Some(FailureMessage(history, "Failed to fetch chat history."));
      }
    }

    /** The chat input's change handler. */
    method SetInputText(value: string)
      modifies this`inputText
      ensures inputText == value
    {
      inputText := value;
    }

    /** sendMessage: when the guard holds, the message (with the input as
        typed, not trimmed) is published to the active contact, appended
        locally with the time it was sent, and the input is cleared.
        Otherwise nothing changes. `userId` is the signed-in user's id and
        `now` the ISO time of sending. */
    method SendMessage(userId: Option<int>, now: string) returns (published: Option<ChatMessage>)
      modifies this`messages, this`inputText
      ensures published.Some? <==> CanSend(old(inputText), hasClient, connected, activeChat)
      ensures published.Some? ==>
        && published.value == ChatMessage(userId, activeChat.value.id, old(inputText), None)
        && messages == old(messages) + [published.value.(timestamp := Some(now))]
        && inputText == ""
      ensures published.None? ==> messages == old(messages) && inputText == old(inputText)
    {
      if CanSend(inputText, hasClient, connected, activeChat) {
        var chatMessage := ChatMessage(userId, activeChat.value.id, inputText, None);
        published := Some(chatMessage);
        messages := messages + [chatMessage.(timestamp := Some(now))];
        inputText := "";
      } else {
        published := None;
      }
    }

    /** toggleSection */
    method ToggleSection(section: string)
      modifies this`visibleSections
      ensures visibleSections == Toggle(old(visibleSections), section)
    {
      visibleSections := Toggle(visibleSections, section);
    }
  }
}
