/** The CV form's handlers (src/components/cv-form.tsx): personal details,
    summary, profile image, the experience and education lists, and the
    comma-separated skills input. Each builds a new CV from the old one. */
module CvForm {
  import opened Records
  import Seqs
  import Text

  /** The personal-information inputs, by their `name` attribute. The profile
      image has its own upload handler. */
  datatype PersonalField = Name | Email | Phone | Address | Website

  function Personal(p: PersonalInfo, f: PersonalField): string
  {
    match f
    case Name => p.name
    case Email => p.email
    case Phone => p.phone
    case Address => p.address
    case Website => p.website
  }

  /** `handlePersonalInfoChange`: one key of `personalInfo` takes the value;
      the other keys, the profile image and the rest of the CV are kept. */
  function HandlePersonalInfoChange(cv: CvData, f: PersonalField, value: string): (r: CvData)
    ensures forall g :: Personal(r.personalInfo, g) == (if g == f then value else Personal(cv.personalInfo, g))
    ensures r.personalInfo.profileImage == cv.personalInfo.profileImage
    ensures r.(personalInfo := cv.personalInfo) == cv
  {
    var p := cv.personalInfo;
    var q := match f
      case Name => p.(name := value)
      case Email => p.(email := value)
      case Phone => p.(phone := value)
      case Address => p.(address := value)
      case Website => p.(website := value);
    cv.(personalInfo := q)
  }

  /** The `FileReader` load handler: a data URL that came back empty (falsy)
      changes nothing; otherwise it becomes the profile image. */
  function HandleProfileImageLoaded(cv: CvData, result: string): (r: CvData)
    ensures result == [] ==> r == cv
    ensures result != [] ==> r.personalInfo == cv.personalInfo.(profileImage := result)
    ensures r.(personalInfo := cv.personalInfo) == cv
  {
    if result == [] then cv else cv.(personalInfo := cv.personalInfo.(profileImage := result))
  }

  function HandleSummaryChange(cv: CvData, value: string): (r: CvData)
    ensures r.summary == value && r.(summary := cv.summary) == cv
  {
    cv.(summary := value)
  }

  /** The text fields of an experience entry. */
  datatype ExperienceField = Company | Title | StartDate | EndDate | Description

  /** The value of one text field of an entry. */
  function ExperienceValue(e: Experience, f: ExperienceField): string
  {
    match f
    case Company => e.company
    case Title => e.title
    case StartDate => e.startDate
    case EndDate => e.endDate
    case Description => e.description
  }

  /** An entry is its id and its text fields, so `SetExperienceField`'s
      contract determines the entry it returns. */
  lemma ExperienceByFields(a: Experience, b: Experience)
    requires a.id == b.id
    requires forall g :: ExperienceValue(a, g) == ExperienceValue(b, g)
    ensures a == b
  {
    assert ExperienceValue(a, Company) == ExperienceValue(b, Company);
    assert ExperienceValue(a, Title) == ExperienceValue(b, Title);
    assert ExperienceValue(a, StartDate) == ExperienceValue(b, StartDate);
    assert ExperienceValue(a, EndDate) == ExperienceValue(b, EndDate);
    assert ExperienceValue(a, Description) == ExperienceValue(b, Description);
  }

  /** `{ ...exp, [field]: value }`: the chosen field holds `value`, every
      other field and the id are as they were. */
  function SetExperienceField(e: Experience, f: ExperienceField, value: string): (r: Experience)
    ensures r.id == e.id
    ensures ExperienceValue(r, f) == value
    ensures forall g :: g != f ==> ExperienceValue(r, g) == ExperienceValue(e, g)
  {
    match f
    case Company => e.(company := value)
    case Title => e.(title := value)
    case StartDate => e.(startDate := value)
    case EndDate => e.(endDate := value)
    case Description => e.(description := value)
  }

  /** `handleExperienceChange`: same length and order, the field set on every
      entry carrying `id` and on no other, the rest of the CV kept. */
  function HandleExperienceChange(cv: CvData, id: string, f: ExperienceField, value: string): (r: CvData)
    ensures |r.experience| == |cv.experience|
    ensures forall i :: 0 <= i < |cv.experience| ==>
      r.experience[i] == if cv.experience[i].id == id then SetExperienceField(cv.experience[i], f, value) else cv.experience[i]
    ensures r.(experience := cv.experience) == cv
  {
    cv.(experience := Seqs.UpdateWhere(cv.experience, (e: Experience) => e.id == id, (e: Experience) => SetExperienceField(e, f, value)))
  }

  /** `addExperience`: one entry with every text field empty, at the end. */
  function AddExperience(cv: CvData, now: nat): (r: CvData)
    ensures |r.experience| == |cv.experience| + 1
    ensures r.experience[..|cv.experience|] == cv.experience
    ensures r.experience[|cv.experience|] == Experience(Text.NatToString(now), "", "", "", "", "")
    ensures r.(experience := cv.experience) == cv
  {
    cv.(experience := cv.experience + [Experience(Text.NatToString(now), "", "", "", "", "")])
  }

  function KeepExperienceUnless(id: string): Experience -> bool
  {
    (e: Experience) => e.id != id
  }

  /** `removeExperience`: exactly the entries with another id, in order. */
  function RemoveExperience(cv: CvData, id: string): (r: CvData)
    ensures r.experience == Seqs.Filter(KeepExperienceUnless(id), cv.experience)
    ensures forall i :: 0 <= i < |r.experience| ==> r.experience[i].id != id && r.experience[i] in cv.experience
    ensures forall i :: 0 <= i < |cv.experience| && cv.experience[i].id != id ==> cv.experience[i] in r.experience
    ensures r.(experience := cv.experience) == cv
  {
    cv.(experience := Seqs.Filter(KeepExperienceUnless(id), cv.experience))
  }

  lemma RemoveExperienceIdempotent(cv: CvData, id: string)
    ensures RemoveExperience(RemoveExperience(cv, id), id) == RemoveExperience(cv, id)
  {
    Seqs.FilterIdempotent(KeepExperienceUnless(id), cv.experience);
  }

  /** The text fields of an education entry. */
  datatype EducationField = School | Degree | EduStartDate | EduEndDate

  /** The value of one text field of an entry. */
  function EducationValue(e: Education, f: EducationField): string
  {
    match f
    case School => e.school
    case Degree => e.degree
    case EduStartDate => e.startDate
    case EduEndDate => e.endDate
  }

  /** As for experience: an entry is its id and its text fields. */
  lemma EducationByFields(a: Education, b: Education)
    requires a.id == b.id
    requires forall g :: EducationValue(a, g) == EducationValue(b, g)
    ensures a == b
  {
    assert EducationValue(a, School) == EducationValue(b, School);
    assert EducationValue(a, Degree) == EducationValue(b, Degree);
    assert EducationValue(a, EduStartDate) == EducationValue(b, EduStartDate);
    assert EducationValue(a, EduEndDate) == EducationValue(b, EduEndDate);
  }

  /** `{ ...edu, [field]: value }`: the chosen field holds `value`, every
      other field and the id are as they were. */
  function SetEducationField(e: Education, f: EducationField, value: string): (r: Education)
    ensures r.id == e.id
    ensures EducationValue(r, f) == value
    ensures forall g :: g != f ==> EducationValue(r, g) == EducationValue(e, g)
  {
    match f
    case School => e.(school := value)
    case Degree => e.(degree := value)
    case EduStartDate => e.(startDate := value)
    case EduEndDate => e.(endDate := value)
  }

  /** `handleEducationChange`: as for experience. */
  function HandleEducationChange(cv: CvData, id: string, f: EducationField, value: string): (r: CvData)
    ensures |r.education| == |cv.education|
    ensures forall i :: 0 <= i < |cv.education| ==>
      r.education[i] == if cv.education[i].id == id then SetEducationField(cv.education[i], f, value) else cv.education[i]
    ensures r.(education := cv.education) == cv
  {
    cv.(education := Seqs.UpdateWhere(cv.education, (e: Education) => e.id == id, (e: Education) => SetEducationField(e, f, value)))
  }

  /** `addEducation`: one entry with every text field empty, at the end. */
  function AddEducation(cv: CvData, now: nat): (r: CvData)
    ensures |r.education| == |cv.education| + 1
    ensures r.education[..|cv.education|] == cv.education
    ensures r.education[|cv.education|] == Education(Text.NatToString(now), "", "", "", "")
    ensures r.(education := cv.education) == cv
  {
    cv.(education := cv.education + [Education(Text.NatToString(now), "", "", "", "")])
  }

  function KeepEducationUnless(id: string): Education -> bool
  {
    (e: Education) => e.id != id
  }

  /** `removeEducation`: exactly the entries with another id, in order. */
  function RemoveEducation(cv: CvData, id: string): (r: CvData)
    ensures r.education == Seqs.Filter(KeepEducationUnless(id), cv.education)
    ensures forall i :: 0 <= i < |r.education| ==> r.education[i].id != id && r.education[i] in cv.education
    ensures forall i :: 0 <= i < |cv.education| && cv.education[i].id != id ==> cv.education[i] in r.education
    ensures r.(education := cv.education) == cv
  {
    cv.(education := Seqs.Filter(KeepEducationUnless(id), cv.education))
  }

  lemma RemoveEducationIdempotent(cv: CvData, id: string)
    ensures RemoveEducation(RemoveEducation(cv, id), id) == RemoveEducation(cv, id)
  {
    Seqs.FilterIdempotent(KeepEducationUnless(id), cv.education);
  }

  /** `value.split(',').map(skill => skill.trim())`: one entry per comma plus
      one, the i-th being the i-th comma-separated piece trimmed. */
  function ParseSkills(value: string): (r: seq<string>)
    ensures |r| == Text.Count(value, ',') + 1
    ensures forall i :: 0 <= i < |r| ==> r[i] == Text.Trim(Text.Split(value, ',')[i])
  {
    TrimEach(Text.Split(value, ','))
  }

  /** `map(skill => skill.trim())`. */
  function TrimEach(pieces: seq<string>): (r: seq<string>)
    ensures |r| == |pieces|
    ensures forall i :: 0 <= i < |pieces| ==> r[i] == Text.Trim(pieces[i])
  {
    Seqs.Map((s: string) => Text.Trim(s), pieces)
  }

  /** `handleSkillsChange`. */
  function HandleSkillsChange(cv: CvData, value: string): (r: CvData)
    ensures r.skills == ParseSkills(value) && r.(skills := cv.skills) == cv
  {
    cv.(skills := ParseSkills(value))
  }

  /** The skills input shows `skills.join(', ')`. */
  function DisplaySkills(skills: seq<string>): string
  {
    Text.Join(skills, ", ")
  }

  /** An emptied input gives one empty skill, not an empty list. */
  lemma ParseEmptySkills()
    ensures ParseSkills("") == [""]
  {
    assert Text.Count("", ',') == 0;
    assert ParseSkills("")[0] == Text.Trim("");
  }

  /** The pieces `split(',')` sees in `join(', ')`: every skill after the
      first carries the space of the separator. */
  function Spaced(skills: seq<string>): (r: seq<string>)
    requires |skills| >= 1
    ensures |r| == |skills| && r[0] == skills[0]
    ensures forall i :: 1 <= i < |skills| ==> r[i] == " " + skills[i]
  {
    [skills[0]] + Seqs.Map((s: string) => " " + s, skills[1..])
  }

  lemma JoinPrefixFirst(parts: seq<string>, glue: string, p: string)
    requires |parts| >= 1
    ensures Text.Join([p + parts[0]] + parts[1..], glue) == p + Text.Join(parts, glue)
  {
    var q := [p + parts[0]] + parts[1..];
    assert q[1..] == parts[1..];
  }

  /** Joining with ", " is joining the spaced pieces with ",". */
  lemma {:induction false} JoinSpaced(skills: seq<string>)
    requires |skills| >= 1
    ensures DisplaySkills(skills) == Text.Join(Spaced(skills), ",")
    decreases |skills|
  {
    if |skills| > 1 {
      var tail := skills[1..];
      JoinSpaced(tail);
      var sp := Spaced(skills);
      var spTail := Spaced(tail);
      assert sp[1..] == [" " + spTail[0]] + spTail[1..];
      JoinPrefixFirst(spTail, ",", " ");
      assert Text.Join(sp, ",") == skills[0] + "," + Text.Join(sp[1..], ",");
      assert Text.Join(sp[1..], ",") == " " + Text.Join(tail, ", ");
      assert DisplaySkills(skills) == skills[0] + ", " + Text.Join(tail, ", ");
    }
  }

  /** What the input shows parses back to the same list, for a non-empty list
      of trimmed skills without commas. */
  lemma SkillsRoundTrip(skills: seq<string>)
    requires |skills| >= 1
    requires forall i :: 0 <= i < |skills| ==> Text.IsTrimmed(skills[i]) && ',' !in skills[i]
    ensures ParseSkills(DisplaySkills(skills)) == skills
  {
    var sp := Spaced(skills);
    JoinSpaced(skills);
    forall i | 0 <= i < |sp| ensures ',' !in sp[i] {
      if i > 0 {
        assert sp[i] == [' '] + skills[i];
      }
    }
    Text.SplitJoin(sp, ',');
    var r := ParseSkills(DisplaySkills(skills));
    forall i | 0 <= i < |skills| ensures r[i] == skills[i] {
      if i == 0 {
        Text.TrimOfTrimmed(skills[0]);
      } else {
        Text.TrimAfterSpace(skills[i]);
      }
    }
  }
}
