/**
 * The profile page of src/pages/Profile.tsx: an edit mode toggled by a
 * button, and edits of the name, the role and the list of skills that are
 * possible only while it is on.
 */
module Profile {

  /** The profile record the page keeps in its state. */
  datatype ProfileData = ProfileData(name: string, role: string, skills: seq<string>)

  /** The record the page starts with. */
  const InitialProfile := ProfileData("John Doe", "Web Developer & Designer",
                                      ["React", "Node.js", "TypeScript", "Python"])

  /** The label of a freshly added skill. */
  const NewSkill := "New Skill"

  /** The page's state: the edit mode and the profile record. */
  class ProfileEditor {
    var isEditing: bool
    var profile: ProfileData

    constructor ()
      ensures !isEditing && profile == InitialProfile
    {
      isEditing := false;
      profile := InitialProfile;
    }

    /** The pencil/cross button flips the edit mode and leaves the record alone. */
    method ToggleEdit()
      modifies this
      ensures isEditing == !old(isEditing)
      ensures profile == old(profile)
    {
      isEditing := !isEditing;
    }

    /** Typing in the name box (shown only while editing) replaces the name and nothing else. */
    method EditName(value: string)
      requires isEditing
      modifies this
      ensures profile.name == value
      ensures profile.role == old(profile.role) && profile.skills == old(profile.skills)
      ensures isEditing
    {
      profile := profile.(name := value);
    }

    /** Typing in the role box (shown only while editing) replaces the role and nothing else. */
    method EditRole(value: string)
      requires isEditing
      modifies this
      ensures profile.role == value
      ensures profile.name == old(profile.name) && profile.skills == old(profile.skills)
      ensures isEditing
    {
      profile := profile.(role := value);
    }

    /** "Add Skill" (shown only while editing) appends "New Skill" after the existing skills. */
    method AddSkill()
      requires isEditing
      modifies this
      ensures |profile.skills| == |old(profile.skills)| + 1
      ensures profile.skills[..|old(profile.skills)|] == old(profile.skills)
      ensures profile.skills[|profile.skills| - 1] == NewSkill
      ensures profile.name == old(profile.name) && profile.role == old(profile.role)
      ensures isEditing
    {
      profile := profile.(skills := profile.skills + [NewSkill]);
    }

    /**
     * Typing in the box of skill `index` (one box per skill, shown only while
     * editing) replaces that skill alone.
     */
    method EditSkill(index: nat, value: string)
      requires isEditing && index < |profile.skills|
      modifies this
      ensures |profile.skills| == |old(profile.skills)|
      ensures profile.skills[index] == value
      ensures forall j :: 0 <= j < |profile.skills| && j != index ==> profile.skills[j] == old(profile.skills)[j]
      ensures profile.name == old(profile.name) && profile.role == old(profile.role)
      ensures isEditing
    {
      var newSkills := profile.skills;
      newSkills := newSkills[index := value];
      profile := profile.(skills := newSkills);
    }

    /** "Cancel" leaves edit mode; the edits made stay in the record. */
    method Cancel()
      requires isEditing
      modifies this
      ensures !isEditing && profile == old(profile)
    {
      isEditing := false;
    }

    /** "Save Changes" leaves edit mode; the record is already up to date. */
    method Save()
      requires isEditing
      modifies this
      ensures !isEditing && profile == old(profile)
    {
      isEditing := false;
    }
  }
}
