/** The classic CV template (src/components/cv-templates/classic.tsx): the
    header with its optional photo and website, the experience entries with
    their descriptions turned into bullets, the education entries and the
    skills line. The other CV templates repeat the bullet rule and differ in
    the skills separator, which is a parameter here. */
module ClassicCv {
  import opened Wrappers
  import opened Records
  import Seqs
  import Text

  /** `description.split('\n').map(line => line.replace(/^- /, ''))`: one
      bullet per line, in line order, each its line with one leading "- "
      removed when there is one. */
  function Bullets(description: string): (r: seq<string>)
    ensures |r| == Text.Count(description, '\n') + 1
    ensures forall i :: 0 <= i < |r| ==> r[i] == Text.StripListMarker(Text.Split(description, '\n')[i])
  {
    var lines := Text.Split(description, '\n');
    Seqs.Map((line: string) => Text.StripListMarker(line), lines)
  }

  /** Only one marker is removed: a line "- - x" becomes the bullet "- x". */
  lemma OneMarkerRemoved(x: string)
    requires '\n' !in x
    ensures Bullets("- - " + x) == ["- " + x]
  {
    var d := "- - " + x;
    assert '\n' !in d by {
      assert d == ['-', ' ', '-', ' '] + x;
    }
    Text.CountAbsent(d, '\n');
    assert Text.Split(d, '\n') == [d];
    assert d[..2] == "- ";
    assert d[2..] == "- " + x;
  }

  /** A description none of whose lines starts with "- " gives its lines,
      which join back to the description. */
  lemma UnmarkedDescription(description: string)
    requires forall i :: 0 <= i < |Text.Split(description, '\n')| ==>
      var line := Text.Split(description, '\n')[i]; !(|line| >= 2 && line[..2] == "- ")
    ensures Text.Join(Bullets(description), "\n") == description
  {
    assert Bullets(description) == Text.Split(description, '\n');
  }

  datatype ExperienceView = ExperienceView(title: string, dates: string, company: string, bullets: seq<string>)

  datatype EducationView = EducationView(degree: string, dates: string, school: string)

  datatype View = View(
    profileImage: Option<string>,
    name: string,
    email: string,
    phone: string,
    address: string,
    website: Option<string>,
    summary: string,
    experience: seq<ExperienceView>,
    education: seq<EducationView>,
    skills: string)

  function ExperienceViewOf(e: Experience): ExperienceView
  {
    ExperienceView(e.title, e.startDate + " - " + e.endDate, e.company, Bullets(e.description))
  }

  function EducationViewOf(e: Education): EducationView
  {
    EducationView(e.degree, e.startDate + " - " + e.endDate, e.school)
  }

  /** `skills.join(separator)`: " · " in this template, ", " in the
      minimalist one. */
  function SkillsLine(skills: seq<string>, separator: string): string
  {
    Text.Join(skills, separator)
  }

  /** The rendered CV: the contact details and the summary as they are; the
      photo and the website exactly when they are set; experiences and
      education entries in list order, each with its dates as "start - end"
      and each experience with the bullets of its description; the skills
      joined with " · ". */
  function Render(cv: CvData): (v: View)
    ensures v.name == cv.personalInfo.name && v.email == cv.personalInfo.email
    ensures v.phone == cv.personalInfo.phone && v.address == cv.personalInfo.address
    ensures v.summary == cv.summary
    ensures v.profileImage.Some? <==> cv.personalInfo.profileImage != []
    ensures v.profileImage.Some? ==> v.profileImage.value == cv.personalInfo.profileImage
    ensures v.website.Some? <==> cv.personalInfo.website != []
    ensures v.website.Some? ==> v.website.value == cv.personalInfo.website
    ensures |v.experience| == |cv.experience|
    ensures forall i :: 0 <= i < |cv.experience| ==>
      var e := cv.experience[i];
      && v.experience[i].title == e.title
      && v.experience[i].company == e.company
      && v.experience[i].dates == e.startDate + " - " + e.endDate
      && v.experience[i].bullets == Bullets(e.description)
    ensures |v.education| == |cv.education|
    ensures forall i :: 0 <= i < |cv.education| ==>
      var e := cv.education[i];
      && v.education[i].degree == e.degree
      && v.education[i].school == e.school
      && v.education[i].dates == e.startDate + " - " + e.endDate
    ensures v.skills == Text.Join(cv.skills, " · ")
  {
    var p := cv.personalInfo;
    View(
      if p.profileImage != [] then Some(p.profileImage) else None,
      p.name, p.email, p.phone, p.address,
      if p.website != [] then Some(p.website) else None,
      cv.summary,
      Seqs.Map(ExperienceViewOf, cv.experience),
      Seqs.Map(EducationViewOf, cv.education),
      SkillsLine(cv.skills, " · "))
  }
}
