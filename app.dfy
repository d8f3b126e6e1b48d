/** App.tsx: the state of the call screen and the handlers that change it.
    Each `useState` slot is a field of `AppState`; each handler is a method that changes only
    the slots it sets. Browser media is reduced to what the handlers look at: whether a screen
    stream is held, and the `enabled` flags of the local video tracks. Ids (`uuidv4`) and
    times (`new Date()`) are parameters. */
module App {
  import opened Wrappers
  import opened Types
  import opened Text
  import opened Directory
  import opened Storage
  import opened Roster

  /** The names of the three demonstration participants. */
  const ParticipantNames: seq<string> := ["Maria Garcia", "Chen Wei", "Emily Carter"]

  /** The demonstration participants the call starts with, built from `participantNames`:
      ids participant-2 to participant-4; the first unmuted with its camera on, the second
      muted, the third with its camera off; no self tile, no raised hand, and a robohash
      avatar keyed by the name with everything but ASCII letters and digits removed. */
  function InitialParticipants(names: seq<string>): (r: seq<Participant>)
    requires |names| == 3
    ensures |r| == |names| && CountSelf(r) == 0
    ensures r[0].id == "participant-2" && !r[0].isMuted && !r[0].isVideoOff
    ensures r[1].id == "participant-3" && r[1].isMuted && !r[1].isVideoOff
    ensures r[2].id == "participant-4" && !r[2].isMuted && r[2].isVideoOff
    ensures forall i :: 0 <= i < |r| ==>
              && r[i].name == names[i]
              && !r[i].isSelf && !r[i].isHandRaised && !r[i].isScreenSharing
              && r[i].avatar == AvatarUrl(KeepAlphanumeric(names[i]))
  {
    var r := [ DemoParticipant("participant-2", names[0], false, false),
               DemoParticipant("participant-3", names[1], true, false),
               DemoParticipant("participant-4", names[2], false, true) ];
    NoSelfCountZero(r);
    r
  }

  /** A demonstration tile with the given id, name, microphone and camera state. */
  function DemoParticipant(id: string, name: string, muted: bool, videoOff: bool): (p: Participant)
    ensures p.id == id && p.name == name && p.isMuted == muted && p.isVideoOff == videoOff
    ensures !p.isSelf && !p.isHandRaised && !p.isScreenSharing
    ensures p.avatar == AvatarUrl(KeepAlphanumeric(name))
  {
    Participant(id, name, muted, videoOff, false, false, false, AvatarUrl(KeepAlphanumeric(name)))
  }

  /** The on/off fields of a tile that the handlers flip or set. */
  datatype Flag = Muted | VideoOff | ScreenSharing | HandRaised

  function FlagOf(p: Participant, f: Flag): bool
  {
    match f
    case Muted => p.isMuted
    case VideoOff => p.isVideoOff
    case ScreenSharing => p.isScreenSharing
    case HandRaised => p.isHandRaised
  }

  /** `{ ...p, <flag>: b }`: the flag becomes `b`, and putting the old value back restores `p`. */
  function WithFlag(p: Participant, f: Flag, b: bool): (q: Participant)
    ensures FlagOf(q, f) == b
    ensures q.isSelf == p.isSelf
    ensures forall g :: g != f ==> FlagOf(q, g) == FlagOf(p, g)
  {
    match f
    case Muted => p.(isMuted := b)
    case VideoOff => p.(isVideoOff := b)
    case ScreenSharing => p.(isScreenSharing := b)
    case HandRaised => p.(isHandRaised := b)
  }

  lemma WithFlagRestores(p: Participant, f: Flag, b: bool)
    ensures WithFlag(WithFlag(p, f, b), f, FlagOf(p, f)) == p
  {
  }

  /** `prev.map(p => p.isSelf ? { ...p, <flag>: !p.<flag> } : p)`. */
  function ToggleSelf(ps: seq<Participant>, f: Flag): (r: seq<Participant>)
    ensures SameOthers(ps, r)
    ensures forall i :: 0 <= i < |ps| && ps[i].isSelf ==>
              FlagOf(r[i], f) == !FlagOf(ps[i], f) && WithFlag(r[i], f, FlagOf(ps[i], f)) == ps[i]
  {
    seq(|ps|, i requires 0 <= i < |ps| =>
      if ps[i].isSelf then WithFlag(ps[i], f, !FlagOf(ps[i], f)) else ps[i])
  }

  /** Toggling the same flag twice gives back the list. */
  lemma ToggleSelfTwice(ps: seq<Participant>, f: Flag)
    ensures ToggleSelf(ToggleSelf(ps, f), f) == ps
  {
    var once := ToggleSelf(ps, f);
    var twice := ToggleSelf(once, f);
    forall i | 0 <= i < |ps| ensures twice[i] == ps[i] {
      if ps[i].isSelf {
        WithFlagRestores(ps[i], f, !FlagOf(ps[i], f));
      }
    }
  }

  /** `prev.map(p => p.isSelf ? { ...p, <flag>: b } : p)`. */
  function SetSelfFlag(ps: seq<Participant>, f: Flag, b: bool): (r: seq<Participant>)
    ensures SameOthers(ps, r)
    ensures forall i :: 0 <= i < |ps| && ps[i].isSelf ==>
              FlagOf(r[i], f) == b && WithFlag(r[i], f, FlagOf(ps[i], f)) == ps[i]
  {
    seq(|ps|, i requires 0 <= i < |ps| => if ps[i].isSelf then WithFlag(ps[i], f, b) else ps[i])
  }

  /** Clearing the sharing flag ends sharing; setting it starts sharing when there is a self tile. */
  lemma SetSharingDecides(ps: seq<Participant>, b: bool)
    ensures SelfSharing(SetSelfFlag(ps, ScreenSharing, b)) <==> b && SelfIndex(ps).Some?
  {
    var r := SetSelfFlag(ps, ScreenSharing, b);
    if b && SelfIndex(ps).Some? {
      var i := SelfIndex(ps).value;
      assert r[i].isSelf && r[i].isScreenSharing;
    }
  }

  /** `prev.map(p => p.isSelf ? { ...p, name, avatar } : p)`. */
  function RenameSelf(ps: seq<Participant>, name: string, avatar: string): (r: seq<Participant>)
    ensures SameOthers(ps, r)
    ensures forall i :: 0 <= i < |ps| && ps[i].isSelf ==> r[i] == ps[i].(name := name, avatar := avatar)
  {
    seq(|ps|, i requires 0 <= i < |ps| => if ps[i].isSelf then ps[i].(name := name, avatar := avatar) else ps[i])
  }

  /** The tile `handleAuthSuccess` builds for the signed-in user. */
  function SelfParticipant(id: string, user: User): (p: Participant)
    ensures p.isSelf && !p.isMuted && !p.isVideoOff && !p.isScreenSharing && !p.isHandRaised
    ensures p.name == user.name && p.avatar == user.avatar
  {
    Participant(id, user.name, false, false, true, false, false, user.avatar)
  }

  /** `[self, ...prev.filter(p => !p.isSelf)]`: exactly one self tile, first, and the
      other participants in their order. */
  function AddSelf(ps: seq<Participant>, me: Participant): (r: seq<Participant>)
    requires me.isSelf
    ensures |r| >= 1 && r[0] == me
    ensures CountSelf(r) == 1
    ensures RemoveSelf(r) == RemoveSelf(ps)
  {
    var r := [me] + RemoveSelf(ps);
    assert r[1..] == RemoveSelf(ps);
    RemoveSelfIdempotent(ps);
    r
  }

  function WelcomeMessage(id: string, name: string, time: string): ChatMessage
  {
    ChatMessage(id, "System", "Welcome, " + name + "!", time, false)
  }

  /** JavaScript truthiness of `activeVBUrl: string | null`. */
  predicate BackgroundActive(url: Option<string>)
  {
    url.Some? && url.value != ""
  }

  /** `streamForLocalParticipant` (App.tsx:98): the processed stream exactly when a
      background is active, the camera stream otherwise. */
  function StreamForLocal<S>(activeVBUrl: Option<string>, processed: S, camera: S): (s: S)
    ensures BackgroundActive(activeVBUrl) ==> s == processed
    ensures !BackgroundActive(activeVBUrl) ==> s == camera
  {
    if BackgroundActive(activeVBUrl) then processed else camera
  }

  /** `users.map(u => u.email === updated.email ? updated : u)` (App.tsx:236). */
  function SaveSettingsUsers(users: seq<User>, updated: User): (r: seq<User>)
    ensures |r| == |users|
    ensures forall i :: 0 <= i < |users| ==> r[i].email == users[i].email
    ensures forall i :: 0 <= i < |users| ==>
              (users[i].email == updated.email ==> r[i] == updated) && (users[i].email != updated.email ==> r[i] == users[i])
  {
    seq(|users|, i requires 0 <= i < |users| => if users[i].email == updated.email then updated else users[i])
  }

  /** On a table with unique e-mails, saving settings rewrites at most one row and keeps the e-mails unique. */
  lemma SaveSettingsRewritesOneRow(users: seq<User>, updated: User)
    requires EmailsUnique(users)
    ensures var r := SaveSettingsUsers(users, updated);
            && EmailsUnique(r)
            && forall i, j :: 0 <= i < |users| && 0 <= j < |users| && r[i] != users[i] && r[j] != users[j] ==> i == j
  {
    SameEmailsKeepUnique(users, SaveSettingsUsers(users, updated));
  }

  class AppState {
    var participants: seq<Participant>
    var messages: seq<ChatMessage>
    var isChatOpen: bool
    var isNewMeetingModalOpen: bool
    var isSettingsModalOpen: bool
    /** `screenStream !== null` */
    var hasScreenStream: bool
    var isAuthenticated: bool
    var currentUser: Option<User>
    /** The `enabled` flags of the video tracks of `localStream`; null while there is no stream. */
    var localVideoTracks: array?<bool>
    var isVBPanelOpen: bool
    var activeVBUrl: Option<string>
    var meetingDetails: Option<MeetingDetails>

    /** Signed in exactly when a user is held, and then with exactly one self tile; otherwise none. */
    predicate Valid()
      reads this
    {
      && (isAuthenticated <==> currentUser.Some?)
      && CountSelf(participants) == (if isAuthenticated then 1 else 0)
    }

    /** The first render; App.tsx passes `ParticipantNames`. */
    constructor (names: seq<string>)
      requires |names| == 3
      ensures Valid()
      ensures participants == InitialParticipants(names) && messages == []
      ensures !isChatOpen && !isNewMeetingModalOpen && !isSettingsModalOpen && !hasScreenStream
      ensures !isAuthenticated && currentUser == None && localVideoTracks == null
      ensures !isVBPanelOpen && activeVBUrl == None && meetingDetails == None
    {
      participants := InitialParticipants(names);
      messages := [];
      isChatOpen := false;
      isNewMeetingModalOpen := false;
      isSettingsModalOpen := false;
      hasScreenStream := false;
      isAuthenticated := false;
      currentUser := None;
      localVideoTracks := null;
      isVBPanelOpen := false;
      activeVBUrl := None;
      meetingDetails := None;
    }

    /** `handleAuthSuccess`: the user becomes current, its tile is put first in place of
        any earlier self tile, and the chat restarts with a welcome line. */
    method HandleAuthSuccess(user: User, selfId: string, welcomeId: string, time: string)
      requires Valid()
      modifies this`currentUser, this`participants, this`isAuthenticated, this`messages
      ensures Valid()
      ensures currentUser == Some(user) && isAuthenticated
      ensures participants == AddSelf(old(participants), SelfParticipant(selfId, user))
      ensures messages == [WelcomeMessage(welcomeId, user.name, time)]
    {
      currentUser := Some(user);
      var me := SelfParticipant(selfId, user);
      participants := AddSelf(participants, me);
      isAuthenticated := true;
      messages := [WelcomeMessage(welcomeId, user.name, time)];
    }

    /** The session-restore effect: a non-empty remembered e-mail that names a row of the
        users table signs that user in; otherwise nothing happens. */
    method RestoreSession(store: WebStorage, selfId: string, welcomeId: string, time: string)
      requires Valid()
      modifies this`currentUser, this`participants, this`isAuthenticated, this`messages
      ensures Valid()
      ensures var key := store.activeUser;
              if key.Some? && key.value != "" && Exists(store.users, ByEmail(key.value)) then
                var user := Find(store.users, ByEmail(key.value)).value;
                && currentUser == Some(user) && isAuthenticated
                && participants == AddSelf(old(participants), SelfParticipant(selfId, user))
                && messages == [WelcomeMessage(welcomeId, user.name, time)]
              else unchanged(this)
    {
      var activeUserEmail := store.activeUser;
      if activeUserEmail.Some? && activeUserEmail.value != "" {
        var users := store.users;
        var user := Find(users, ByEmail(activeUserEmail.value));
        if user.Some? {
          HandleAuthSuccess(user.value, selfId, welcomeId, time);
        }
      }
    }

    /** `handleLoginOrSignup`: remembers the e-mail for the tab, then signs the user in. */
    method HandleLoginOrSignup(store: WebStorage, user: User, selfId: string, welcomeId: string, time: string)
      requires Valid()
      modifies this`currentUser, this`participants, this`isAuthenticated, this`messages, store`activeUser
      ensures Valid()
      ensures store.activeUser == Some(user.email)
      ensures currentUser == Some(user) && isAuthenticated
      ensures participants == AddSelf(old(participants), SelfParticipant(selfId, user))
      ensures messages == [WelcomeMessage(welcomeId, user.name, time)]
    {
      store.activeUser := Some(user.email);
      HandleAuthSuccess(user, selfId, welcomeId, time);
    }

    /** The camera effect: once signed in, the acquired stream becomes the local stream. */
    method AttachLocalStream(tracks: array<bool>)
      modifies this`localVideoTracks
      ensures localVideoTracks == (if isAuthenticated then tracks else old(localVideoTracks))
    {
      if isAuthenticated {
        localVideoTracks := tracks;
      }
    }

    method HandleToggleMute()
      requires Valid()
      modifies this`participants
      ensures Valid()
      ensures participants == ToggleSelf(old(participants), Muted)
    {
      participants := ToggleSelf(participants, Muted);
      SameOthersKeepRoster(old(participants), participants);
    }

    method HandleToggleHandRaise()
      requires Valid()
      modifies this`participants
      ensures Valid()
      ensures participants == ToggleSelf(old(participants), HandRaised)
    {
      participants := ToggleSelf(participants, HandRaised);
      SameOthersKeepRoster(old(participants), participants);
    }

    /** `handleToggleVideo`: every local video track is switched on or off, and the self
        tile's camera flag flips. */
    method HandleToggleVideo()
      requires Valid()
      modifies this`participants, localVideoTracks
      ensures Valid()
      ensures localVideoTracks == old(localVideoTracks)
      ensures localVideoTracks != null ==>
                forall i :: 0 <= i < localVideoTracks.Length ==> localVideoTracks[i] == !old(localVideoTracks[i])
      ensures participants == ToggleSelf(old(participants), VideoOff)
    {
      var tracks := localVideoTracks;
      if tracks != null {
        var i := 0;
        while i < tracks.Length
          modifies tracks
          invariant 0 <= i <= tracks.Length
          invariant forall j :: 0 <= j < i ==> tracks[j] == !old(tracks[j])
          invariant forall j :: i <= j < tracks.Length ==> tracks[j] == old(tracks[j])
        {
          tracks[i] := !tracks[i];
          i := i + 1;
        }
      }
      participants := ToggleSelf(participants, VideoOff);
      SameOthersKeepRoster(old(participants), participants);
    }

    /** `stopScreenShare`: the screen stream is dropped and no self tile is sharing any more. */
    method StopScreenShare()
      requires Valid()
      modifies this`hasScreenStream, this`participants
      ensures Valid()
      ensures !hasScreenStream && !SelfSharing(participants)
      ensures participants == SetSelfFlag(old(participants), ScreenSharing, false)
    {
      hasScreenStream := false;
      participants := SetSelfFlag(participants, ScreenSharing, false);
      SameOthersKeepRoster(old(participants), participants);
      SetSharingDecides(old(participants), false);
    }

    /** `handleToggleScreenShare`: stops sharing when a self tile shares; otherwise starts
        when the browser hands over a display stream (`acquired`), and does nothing when
        the user cancels or the browser refuses. */
    method HandleToggleScreenShare(acquired: bool)
      requires Valid()
      modifies this`hasScreenStream, this`participants
      ensures Valid()
      ensures SelfSharing(old(participants)) ==>
                !hasScreenStream && participants == SetSelfFlag(old(participants), ScreenSharing, false)
      ensures !SelfSharing(old(participants)) && acquired ==>
                hasScreenStream && participants == SetSelfFlag(old(participants), ScreenSharing, true)
      ensures !SelfSharing(old(participants)) && !acquired ==> unchanged(this)
    {
      if SelfSharing(participants) {
        StopScreenShare();
      } else if acquired {
        hasScreenStream := true;
        participants := SetSelfFlag(participants, ScreenSharing, true);
        SameOthersKeepRoster(old(participants), participants);
      }
    }

    /** `handleEndCall`: a held screen stream is stopped as `stopScreenShare` does. */
    method HandleEndCall()
      requires Valid()
      modifies this`hasScreenStream, this`participants
      ensures Valid()
      ensures !hasScreenStream
      ensures old(hasScreenStream) ==> participants == SetSelfFlag(old(participants), ScreenSharing, false)
      ensures !old(hasScreenStream) ==> participants == old(participants)
    {
      if hasScreenStream {
        StopScreenShare();
      }
    }

    /** `handleSendMessage`: appends one message from the local participant, and nothing
        when there is none. */
    method HandleSendMessage(text: string, id: string, time: string)
      modifies this`messages
      ensures LocalParticipant(participants).None? ==> messages == old(messages)
      ensures LocalParticipant(participants).Some? ==>
                messages == old(messages) + [ChatMessage(id, LocalParticipant(participants).value.name, text, time, true)]
    {
      var local := LocalParticipant(participants);
      if local.None? {
        return;
      }
      messages := messages + [ChatMessage(id, local.value.name, text, time, true)];
    }

    /** `handleLogout`: forgets the tab's user and removes every self tile, keeping the
        others in order; chat, chat panel and meeting details are reset. */
    method HandleLogout(store: WebStorage)
      requires Valid()
      modifies this`currentUser, this`isAuthenticated, this`participants, this`messages, this`isChatOpen,
               this`meetingDetails, store`activeUser
      ensures Valid()
      ensures store.activeUser == None && currentUser == None && !isAuthenticated
      ensures participants == RemoveSelf(old(participants)) && CountSelf(participants) == 0
      ensures messages == [] && !isChatOpen && meetingDetails == None
    {
      store.activeUser := None;
      currentUser := None;
      isAuthenticated := false;
      participants := RemoveSelf(participants);
      messages := [];
      isChatOpen := false;
      meetingDetails := None;
    }

    /** `handleCreateMeeting`: keeps the details and closes the dialog. */
    method HandleCreateMeeting(details: MeetingDetails)
      modifies this`meetingDetails, this`isNewMeetingModalOpen
      ensures meetingDetails == Some(details) && !isNewMeetingModalOpen
    {
      meetingDetails := Some(details);
      isNewMeetingModalOpen := false;
    }

    /** `handleSelectVB`: refused while the local participant shares its screen. */
    method HandleSelectVB(url: Option<string>)
      modifies this`activeVBUrl
      ensures LocalSharing(participants) ==> activeVBUrl == old(activeVBUrl)
      ensures !LocalSharing(participants) ==> activeVBUrl == url
    {
      if LocalSharing(participants) {
        return;
      }
      activeVBUrl := url;
    }

    /** The effect that switches the background off (and closes its panel) once sharing starts. */
    method DisableBackgroundWhileSharing()
      modifies this`activeVBUrl, this`isVBPanelOpen
      ensures !(LocalSharing(participants) && BackgroundActive(activeVBUrl))
      ensures LocalSharing(participants) && BackgroundActive(old(activeVBUrl)) ==>
                activeVBUrl == None && !isVBPanelOpen
      ensures !(LocalSharing(participants) && BackgroundActive(old(activeVBUrl))) ==> unchanged(this)
    {
      if LocalSharing(participants) && BackgroundActive(activeVBUrl) {
        activeVBUrl := None;
        isVBPanelOpen := false;
      }
    }

    /** `handleSaveSettings`: with a current user, its name and avatar change, every row of
        the users table with its e-mail is rewritten, the self tile is renamed and the dialog
        closes; without one, nothing happens. */
    method HandleSaveSettings(store: WebStorage, settings: Settings)
      requires Valid()
      modifies this`currentUser, this`participants, this`isSettingsModalOpen, store`users
      ensures Valid()
      ensures old(currentUser).None? ==> unchanged(this) && unchanged(store)
      ensures old(currentUser).Some? ==>
                var updated := old(currentUser).value.(name := settings.name, avatar := settings.avatar);
                && currentUser == Some(updated)
                && store.users == SaveSettingsUsers(old(store.users), updated)
                && participants == RenameSelf(old(participants), settings.name, settings.avatar)
                && !isSettingsModalOpen
    {
      if currentUser.None? {
        return;
      }
      var updated := currentUser.value.(name := settings.name, avatar := settings.avatar);
      currentUser := Some(updated);
      var users := store.users;
      users := SaveSettingsUsers(users, updated);
      store.users := users;
      participants := RenameSelf(participants, settings.name, settings.avatar);
      SameOthersKeepRoster(old(participants), participants);
      isSettingsModalOpen := false;
    }
  }
}
