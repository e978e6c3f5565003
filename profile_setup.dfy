/** `ProfileSetup`: the profile step of onboarding. Its skill editor adds a skill that is
    non-empty and not yet chosen, removes every copy of a skill, and lets a preset button toggle
    its skill; the other inputs each set one text field. */
module ProfileSetup {
  import opened Lists

  /** The preset buttons, category by category (`skillCategories`). */
  const SkillCategories: seq<(string, seq<string>)> := [
    ("Development", ["JavaScript", "Python", "React", "Node.js", "TypeScript", "Go", "Rust", "Java"]),
    ("Design", ["UI/UX", "Figma", "Adobe Creative Suite", "Sketch", "Prototyping", "User Research"]),
    ("Data", ["Machine Learning", "Data Analysis", "SQL", "R", "TensorFlow", "PyTorch", "Statistics"]),
    ("Business", ["Product Management", "Marketing", "Strategy", "Finance", "Operations", "Analytics"]),
    ("Other", ["Project Management", "Communication", "Leadership", "Research", "Writing"])
  ]

  datatype ProfileData = ProfileData(
    bio: string, year: string, major: string, skills: seq<string>, interests: string,
    githubUsername: string, linkedinUrl: string, portfolioUrl: string, profileImage: string)

  const Initial := ProfileData("", "", "", [], "", "", "", "", "")

  /** `addSkill` on the list: a skill is taken when it is non-empty (not trimmed) and new, and
      lands at the end; otherwise the list is unchanged. */
  function WithSkill(skills: seq<string>, skill: string): (r: seq<string>)
    ensures skill != "" && skill !in skills ==> r == skills + [skill]
    ensures skill == "" || skill in skills ==> r == skills
    ensures forall y :: y in r <==> y in skills || (y == skill && skill != "")
  {
    if skill != "" && skill !in skills then skills + [skill] else skills
  }

  /** A preset button: a chosen skill is removed, any other is added. */
  function Toggled(skills: seq<string>, skill: string): (r: seq<string>)
    ensures skill in skills ==> skill !in r
    ensures skill !in skills && skill != "" ==> skill in r
    ensures forall y :: y != skill ==> (y in r <==> y in skills)
  {
    if skill in skills then RemoveAll(skills, skill) else WithSkill(skills, skill)
  }

  /** Adding keeps the list free of duplicates, whatever is added. */
  lemma WithSkillKeepsNoDuplicates(skills: seq<string>, skill: string)
    requires NoDuplicates(skills)
    ensures NoDuplicates(WithSkill(skills, skill))
  {
    if skill != "" && skill !in skills {
      AppendNewKeepsNoDuplicates(skills, skill);
    }
  }

  /** Toggling keeps the list free of duplicates. */
  lemma ToggledKeepsNoDuplicates(skills: seq<string>, skill: string)
    requires NoDuplicates(skills)
    ensures NoDuplicates(Toggled(skills, skill))
  {
    if skill in skills {
      RemoveAllKeepsNoDuplicates(skills, skill);
    } else {
      WithSkillKeepsNoDuplicates(skills, skill);
    }
  }

  /** Removing a skill just added gives back the list before, in order. */
  lemma RemoveUndoesAdd(skills: seq<string>, skill: string)
    requires skill !in skills
    ensures RemoveAll(WithSkill(skills, skill), skill) == skills
  {
    if skill != "" {
      RemoveAllDistributes(skills, [skill], skill);
      RemoveAllAbsent(skills, skill);
      RemoveAllSingleton(skill, skill);
      assert skills + [] == skills;
    } else {
      RemoveAllAbsent(skills, skill);
    }
  }

  /** Clicking a preset twice: an unchosen skill leaves the list exactly as it was; a chosen one
      comes back, at the end, so the same skills are chosen. */
  lemma ToggleTwice(skills: seq<string>, skill: string)
    requires skill != ""
    ensures skill !in skills ==> Toggled(Toggled(skills, skill), skill) == skills
    ensures skill in skills && NoDuplicates(skills) ==>
      Toggled(Toggled(skills, skill), skill) == RemoveAll(skills, skill) + [skill]
    ensures forall y :: y in Toggled(Toggled(skills, skill), skill) <==> y in skills
  {
    if skill !in skills {
      assert skill in WithSkill(skills, skill);
      RemoveUndoesAdd(skills, skill);
    } else {
      assert skill !in RemoveAll(skills, skill);
    }
  }

  /** The skill is not trimmed: a blank but non-empty entry such as a single space is taken. */
  lemma BlankSkillAccepted(skills: seq<string>)
    requires " " !in skills
    ensures WithSkill(skills, " ") == skills + [" "]
  {
  }

  /** The text inputs of the form other than the skill editor. */
  datatype Detail = Bio | Year | Major | Interests | GithubUsername | LinkedinUrl | PortfolioUrl

  /** The value a text input holds. */
  function DetailOf(p: ProfileData, d: Detail): string {
    match d
    case Bio => p.bio
    case Year => p.year
    case Major => p.major
    case Interests => p.interests
    case GithubUsername => p.githubUsername
    case LinkedinUrl => p.linkedinUrl
    case PortfolioUrl => p.portfolioUrl
  }

  /** `setProfileData(prev => ({ ...prev, [d]: value }))`: the input's field now holds `value`;
      every other text field, the skills and the image keep theirs. */
  function WithDetail(p: ProfileData, d: Detail, value: string): (r: ProfileData)
    ensures DetailOf(r, d) == value
    ensures forall e :: e != d ==> DetailOf(r, e) == DetailOf(p, e)
    ensures r.skills == p.skills && r.profileImage == p.profileImage
  {
    match d
    case Bio => p.(bio := value)
    case Year => p.(year := value)
    case Major => p.(major := value)
    case Interests => p.(interests := value)
    case GithubUsername => p.(githubUsername := value)
    case LinkedinUrl => p.(linkedinUrl := value)
    case PortfolioUrl => p.(portfolioUrl := value)
  }

  /** The form's state. */
  class Profile {
    var profileData: ProfileData
    var newSkill: string
    var isLoading: bool

    /** The chosen skills never hold a duplicate. */
    predicate Valid()
      reads this
    {
      NoDuplicates(profileData.skills)
    }

    constructor ()
      ensures profileData == Initial && newSkill == "" && !isLoading && Valid()
    {
      profileData := Initial;
      newSkill := "";
      isLoading := false;
    }

    /** Typing in the custom-skill input. */
    method SetNewSkill(s: string)
      modifies this`newSkill
      ensures newSkill == s
    {
      newSkill := s;
    }

    /** One of the text inputs. */
    method SetDetail(d: Detail, value: string)
      modifies this`profileData
      ensures profileData == WithDetail(old(profileData), d, value)
      ensures DetailOf(profileData, d) == value
      ensures old(Valid()) ==> Valid()
    {
      profileData := WithDetail(profileData, d, value);
    }

    /** `addSkill`: the list grows by the skill when it is accepted, and the custom input is
        cleared in every case, even when the skill is refused. */
    method AddSkill(skill: string)
      requires Valid()
      modifies this`profileData, this`newSkill
      ensures profileData == old(profileData).(skills := WithSkill(old(profileData.skills), skill))
      ensures newSkill == ""
      ensures Valid()
    {
      WithSkillKeepsNoDuplicates(profileData.skills, skill);
      if skill != "" && skill !in profileData.skills {
        profileData := profileData.(skills := profileData.skills + [skill]);
      }
      newSkill := "";
    }

    /** The add button or Enter in the custom input: `addSkill(newSkill)`. */
    method AddCustomSkill()
      requires Valid()
      modifies this`profileData, this`newSkill
      ensures profileData == old(profileData).(skills := WithSkill(old(profileData.skills), old(newSkill)))
      ensures newSkill == ""
      ensures Valid()
    {
      AddSkill(newSkill);
    }

    /** `removeSkill`: every copy goes, the rest stays in order. */
    method RemoveSkill(skill: string)
      requires Valid()
      modifies this`profileData
      ensures profileData == old(profileData).(skills := RemoveAll(old(profileData.skills), skill))
      ensures Valid()
    {
      RemoveAllKeepsNoDuplicates(profileData.skills, skill);
      profileData := profileData.(skills := RemoveAll(profileData.skills, skill));
    }

    /** A preset button: remove when chosen, add otherwise (adding also clears the custom input). */
    method TogglePreset(skill: string)
      requires Valid()
      modifies this`profileData, this`newSkill
      ensures profileData == old(profileData).(skills := Toggled(old(profileData.skills), skill))
      ensures skill in old(profileData.skills) ==> newSkill == old(newSkill)
      ensures skill !in old(profileData.skills) ==> newSkill == ""
      ensures Valid()
    {
      if skill in profileData.skills {
        RemoveSkill(skill);
      } else {
        AddSkill(skill);
      }
    }

    /** `handleSubmit`: the simulated save always succeeds and hands the profile data on;
        loading is off again afterwards. */
    method Submit() returns (sent: ProfileData)
      modifies this`isLoading
      ensures sent == profileData && !isLoading
    {
      isLoading := true;
      sent := profileData;
      isLoading := false;
    }
  }

  /** Clicking every preset of a category once on an empty list chooses that category, in
      order. */
  method ChooseCategory(k: nat) returns (skills: seq<string>)
    requires k < |SkillCategories|
    ensures skills == SkillCategories[k].1
  {
    var form := new Profile();
    var presets := SkillCategories[k].1;
    PresetsDistinct(k);
    var i := 0;
    while i < |presets|
      invariant 0 <= i <= |presets|
      invariant form.profileData.skills == presets[..i]
      invariant form.Valid()
    {
      NotBefore(presets, i);
      form.TogglePreset(presets[i]);
      assert presets[..i + 1] == presets[..i] + [presets[i]];
      i := i + 1;
    }
    assert presets[..i] == presets;
    skills := form.profileData.skills;
  }

  /** No category lists a skill twice. */
  lemma PresetsDistinct(k: nat)
    requires k < |SkillCategories|
    ensures NoDuplicates(SkillCategories[k].1)
  {
  }

  /** In a list without duplicates, an element does not occur before its own position. */
  lemma NotBefore(s: seq<string>, i: nat)
    requires NoDuplicates(s) && i < |s|
    ensures s[i] !in s[..i]
  {
  }
}
