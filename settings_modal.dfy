/** components/SettingsModal.tsx: the dialog that edits the display name and picks one of
    five avatars. `currentName` and `currentAvatar` are the props it is opened with. */
module SettingsModal {
  import opened Wrappers
  import opened Types
  import opened Text

  /** The five avatar choices. */
  const Avatars: seq<string> := [
    "https://robohash.org/user1.png?size=150x150&set=set4",
    "https://robohash.org/user2.png?size=150x150&set=set4",
    "https://robohash.org/user3.png?size=150x150&set=set4",
    "https://robohash.org/user4.png?size=150x150&set=set4",
    "https://robohash.org/user5.png?size=150x150&set=set4"
  ]

  class SettingsForm {
    var currentName: string
    var currentAvatar: string
    var name: string
    var selectedAvatar: string

    constructor (currentName: string, currentAvatar: string)
      ensures this.currentName == currentName && this.currentAvatar == currentAvatar
      ensures name == currentName && selectedAvatar == currentAvatar
    {
      this.currentName := currentName;
      this.currentAvatar := currentAvatar;
      name := currentName;
      selectedAvatar := currentAvatar;
    }

    /** The effect run when the dialog opens: the form shows the current name and avatar,
        so Save starts disabled unless the current name has blanks around it to trim. */
    method Open(currentName: string, currentAvatar: string)
      modifies this
      ensures this.currentName == currentName && this.currentAvatar == currentAvatar
      ensures name == currentName && selectedAvatar == currentAvatar
      ensures SaveDisabled() <==> Trim(currentName) == "" || Trim(currentName) == currentName
    {
      this.currentName := currentName;
      this.currentAvatar := currentAvatar;
      name := currentName;
      selectedAvatar := currentAvatar;
    }

    /** Clicking the `k`-th avatar option. */
    method SelectAvatar(k: nat)
      requires k < |Avatars|
      modifies this`selectedAvatar
      ensures selectedAvatar == Avatars[k] && selectedAvatar in Avatars
    {
      selectedAvatar := Avatars[k];
    }

    /** The Save button's `disabled`: a blank name, or the current name and avatar again. */
    predicate SaveDisabled()
      reads this
    {
      Trim(name) == "" || (Trim(name) == currentName && selectedAvatar == currentAvatar)
    }

    /** `handleSubmit`: the settings handed to `onSave` (trimmed name, selected avatar), or
        none for a blank name. Save is disabled exactly when submitting would save nothing
        new. */
    method Submit() returns (r: Option<Settings>)
      ensures r.Some? <==> Trim(name) != ""
      ensures r.Some? ==> r.value == Settings(Trim(name), selectedAvatar)
      ensures SaveDisabled() <==> r.None? || r.value == Settings(currentName, currentAvatar)
    {
      var trimmed := Trim(name);
      if trimmed != "" {
        r := Some(Settings(trimmed, selectedAvatar));
      } else {
        r := None;
      }
    }
  }
}
