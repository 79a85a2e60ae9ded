/** The portfolio document: the single record every page renders and the admin edits. */
module PortfolioTypes {
  import opened Wrappers

  datatype Project = Project(
    id: string,
    title: string,
    description: string,
    techStack: seq<string>,
    role: string,
    image: Option<string>,   // optional image URL shown on card flip
    link: Option<string>)    // optional live link

  datatype ExperienceEntry = ExperienceEntry(
    id: string,
    company: string,
    role: string,
    period: string,
    highlights: seq<string>)

  datatype Contact = Contact(email: string, github: string, linkedin: string)

  datatype PortfolioData = PortfolioData(
    name: string,
    title: string,
    experienceYears: string,
    intro: string,
    skills: map<string, seq<string>>,   // category name -> skill chips
    projects: seq<Project>,
    experience: seq<ExperienceEntry>,
    contact: Contact)

  function ProjectId(p: Project): string { p.id }

  function ExperienceId(e: ExperienceEntry): string { e.id }
}
