/** The records the application passes around (the declarations of types.ts, with the
    `id` that services/database.ts and services/api.ts read and write on users). */
module Types {
  import opened Wrappers

  /** A row of a user table. `id` is absent on the rows that services/authApi.ts and
      components/AuthPage.tsx create; `password` may be absent; `lastLogin` may be null. */
  datatype User = User(
    id: Option<string>,
    name: string,
    email: string,
    password: Option<string>,
    avatar: string,
    lastLogin: Option<string>)

  /** A tile of the call. Every participant the application builds carries the optional
      fields `isScreenSharing`, `isHandRaised` and `avatar`, so they are plain fields here. */
  datatype Participant = Participant(
    id: string,
    name: string,
    isMuted: bool,
    isVideoOff: bool,
    isSelf: bool,
    isScreenSharing: bool,
    isHandRaised: bool,
    avatar: string)

  datatype ChatMessage = ChatMessage(
    id: string,
    senderName: string,
    text: string,
    timestamp: string,
    isSelf: bool)

  /** What the new-meeting dialog hands to the application. */
  datatype MeetingDetails = MeetingDetails(title: string, date: Option<string>, time: Option<string>)

  /** What the settings dialog hands to the application. */
  datatype Settings = Settings(name: string, avatar: string)
}
