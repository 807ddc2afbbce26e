/** The earlier `SubjectAreaManager` of `src/js/subjectAreas_old.js`: its
    own hard-coded classifier (`prepareContentData`), the three topic cards
    and the modal that shows a topic's entries, with the `currentArea` /
    `engagementStartTime` pair set on click and cleared 300 ms after a
    close. The page's `gtag` and the modal's DOM elements are passed in. */
module SubjectAreasOld {
  import opened Records
  import opened JsText
  import opened Seqs
  import opened Analytics

  // ---------------------------------------------------------------------
  // prepareContentData
  // ---------------------------------------------------------------------

  /** An entry of a topic card's `content` list. */
  datatype ContentEntry =
    | ExperienceEntry(title: Option<string>, company: Option<string>, duration: string,
                      description: Option<string>, achievements: seq<string>, technologies: seq<string>)
    | ProjectEntry(title: Option<string>, description: Option<string>, technologies: seq<string>,
                   link: Option<string>, github: Option<string>)

  /** The entry pushed for a selected experience. */
  function ExperienceEntryOf(exp: Item): ContentEntry
  {
    ExperienceEntry(
      exp.position,
      exp.company,
      Interpolate(exp.startDate) + " - " + OrElse(exp.endDate, "Present"),
      exp.description,
      ListOrEmpty(exp.achievements),
      ListOrEmpty(exp.skills))
  }

  /** The entry pushed for a selected project; its technologies fall back
      to its tags (a list is truthy even when empty). */
  function ProjectEntryOf(project: Item): ContentEntry
  {
    ProjectEntry(
      project.title,
      project.description,
      if project.technologies.Some? then project.technologies.value else ListOrEmpty(project.tags),
      project.demo,
      project.code)
  }

  /** How entries are shaped: an experience's duration ends in "Present"
      when its end date is missing or empty, and its technologies are its
      skills; a project's technologies are its technologies, else its tags,
      else none. */
  lemma EntryShapes(exp: Item, project: Item)
    ensures ExperienceEntryOf(exp).duration
      == Interpolate(exp.startDate) + " - " + (if Truthy(exp.endDate) then exp.endDate.value else "Present")
    ensures ExperienceEntryOf(exp).technologies == (if exp.skills.Some? then exp.skills.value else [])
    ensures ProjectEntryOf(project).technologies ==
      if project.technologies.Some? then project.technologies.value
      else if project.tags.Some? then project.tags.value
      else []
  {
  }

  /** `s?.toLowerCase() || ''`. */
  function LowerOrEmpty(s: Option<string>): string
  {
    if s.Some? then Lower(s.value) else ""
  }

  /** `exp.skills?.join(' ').toLowerCase() || ''`. */
  function SkillsText(exp: Item): string
  {
    if exp.skills.Some? then Lower(Join(exp.skills.value, " ")) else ""
  }

  /** The experience filter of `prepareContentData`. */
  predicate ExperienceRelevant(category: string, exp: Item)
  {
    var description := LowerOrEmpty(exp.description);
    if category == "fintech" then
      Contains(description, "fintech") || Contains(description, "crypto")
      || Contains(description, "financial") || Contains(SkillsText(exp), "blockchain")
    else if category == "media" then
      Contains(description, "media") || Contains(description, "content")
      || Contains(description, "interview") || Contains(description, "video")
    else false
  }

  /** The project filter of `prepareContentData`: every project for
      hobbies. */
  predicate ProjectRelevant(category: string, project: Item)
  {
    var description, field := LowerOrEmpty(project.description), LowerOrEmpty(project.category);
    if category == "media" then
      Contains(description, "media") || Contains(field, "media")
      || Contains(description, "video") || Contains(description, "content")
    else if category == "fintech" then
      Contains(description, "crypto") || Contains(description, "financial") || Contains(field, "fintech")
    else category == "hobbies"
  }

  function RelevantExperiences(category: string, exps: seq<Item>): seq<Item>
  {
    Filter(exps, exp => ExperienceRelevant(category, exp))
  }

  function RelevantProjects(category: string, projects: seq<Item>): seq<Item>
  {
    Filter(projects, project => ProjectRelevant(category, project))
  }

  function ExperienceEntries(exps: seq<Item>): seq<ContentEntry>
  {
    seq(|exps|, i requires 0 <= i < |exps| => ExperienceEntryOf(exps[i]))
  }

  function ProjectEntries(projects: seq<Item>): seq<ContentEntry>
  {
    seq(|projects|, i requires 0 <= i < |projects| => ProjectEntryOf(projects[i]))
  }

  /** What `prepareContentData(category)` returns for the loaded documents:
      nothing while either document is missing, else the entries of the
      selected experiences followed by those of the selected projects. A
      document without its list contributes nothing. */
  function PreparedContent(category: string, experienceData: Option<ExperienceDoc>, projectsData: Option<ProjectsDoc>): seq<ContentEntry>
  {
    if experienceData.None? || projectsData.None? then []
    else
      ExperienceEntries(RelevantExperiences(category, ListOrEmpty(experienceData.value.workExperience)))
      + ProjectEntries(RelevantProjects(category, ListOrEmpty(projectsData.value.projects)))
  }

  /** The entries are the selected experiences, in source order, followed
      by the selected projects, in source order; both selections are
      order-preserving subsequences of the documents' lists. */
  lemma {:induction false} PreparedContentOrder(category: string, experience: ExperienceDoc, projects: ProjectsDoc)
    ensures var exps := RelevantExperiences(category, ListOrEmpty(experience.workExperience));
      var selected := RelevantProjects(category, ListOrEmpty(projects.projects));
      var content := PreparedContent(category, Some(experience), Some(projects));
      && IsSubsequence(exps, ListOrEmpty(experience.workExperience))
      && IsSubsequence(selected, ListOrEmpty(projects.projects))
      && |content| == |exps| + |selected|
      && (forall i :: 0 <= i < |exps| ==> content[i] == ExperienceEntryOf(exps[i]))
      && (forall i :: 0 <= i < |selected| ==> content[|exps| + i] == ProjectEntryOf(selected[i]))
      && (forall i, j :: 0 <= i < j < |content| && content[j].ExperienceEntry? ==> content[i].ExperienceEntry?)
  {
    var exps := RelevantExperiences(category, ListOrEmpty(experience.workExperience));
    var selected := RelevantProjects(category, ListOrEmpty(projects.projects));
    EntriesLayout(PreparedContent(category, Some(experience), Some(projects)), exps, selected);
  }

  /** Experience entries followed by project entries: the experiences take
      the first places and no experience entry follows a project entry. */
  lemma EntriesLayout(content: seq<ContentEntry>, exps: seq<Item>, selected: seq<Item>)
    requires content == ExperienceEntries(exps) + ProjectEntries(selected)
    ensures |content| == |exps| + |selected|
      && (forall i :: 0 <= i < |exps| ==> content[i] == ExperienceEntryOf(exps[i]))
      && (forall i :: 0 <= i < |selected| ==> content[|exps| + i] == ProjectEntryOf(selected[i]))
      && (forall i, j :: 0 <= i < j < |content| && content[j].ExperienceEntry? ==> content[i].ExperienceEntry?)
  {
    forall i | 0 <= i < |content|
      ensures content[i].ExperienceEntry? <==> i < |exps|
    {
      if i >= |exps| {
        assert content[i] == ProjectEntries(selected)[i - |exps|];
      }
    }
  }

  /** Without both documents there is nothing to show. */
  lemma PreparedContentNeedsBothDocuments(category: string, experienceData: Option<ExperienceDoc>, projectsData: Option<ProjectsDoc>)
    requires experienceData.None? || projectsData.None?
    ensures PreparedContent(category, experienceData, projectsData) == []
  {
  }

  /** The hobbies card lists every project and no experience. */
  lemma HobbiesShowsEveryProject(experience: ExperienceDoc, projects: ProjectsDoc)
    ensures PreparedContent("hobbies", Some(experience), Some(projects)) == ProjectEntries(ListOrEmpty(projects.projects))
  {
    FilterNone(ListOrEmpty(experience.workExperience), exp => ExperienceRelevant("hobbies", exp));
    FilterAll(ListOrEmpty(projects.projects), project => ProjectRelevant("hobbies", project));
    assert ExperienceEntries([]) == [];
  }

  /** A category other than the three topics selects nothing. */
  lemma UnknownCategoryShowsNothing(category: string, experience: ExperienceDoc, projects: ProjectsDoc)
    requires category != "fintech" && category != "media" && category != "hobbies"
    ensures PreparedContent(category, Some(experience), Some(projects)) == []
  {
    FilterNone(ListOrEmpty(experience.workExperience), exp => ExperienceRelevant(category, exp));
    FilterNone(ListOrEmpty(projects.projects), project => ProjectRelevant(category, project));
    assert ExperienceEntries([]) == [] && ProjectEntries([]) == [];
  }

  /** A skill mentioning blockchain, in any case, makes an experience a
      fintech one, whatever its description says: the skills are joined,
      lowered and searched. */
  lemma BlockchainSkillIsFintech(exp: Item, i: int)
    requires exp.skills.Some? && 0 <= i < |exp.skills.value|
    requires Contains(Lower(exp.skills.value[i]), "blockchain")
    ensures ExperienceRelevant("fintech", exp)
  {
    var skills := exp.skills.value;
    JoinContainsPart(skills, " ", i);
    LowerPreservesContains(Join(skills, " "), skills[i]);
    ContainsTransitive(SkillsText(exp), Lower(skills[i]), "blockchain");
  }

  lemma ExperienceEntriesSnoc(exps: seq<Item>, i: int)
    requires 0 <= i < |exps|
    ensures ExperienceEntries(exps[..i + 1]) == ExperienceEntries(exps[..i]) + [ExperienceEntryOf(exps[i])]
  {
  }

  lemma ProjectEntriesSnoc(projects: seq<Item>, i: int)
    requires 0 <= i < |projects|
    ensures ProjectEntries(projects[..i + 1]) == ProjectEntries(projects[..i]) + [ProjectEntryOf(projects[i])]
  {
  }

  /** `relevantExperience.forEach(exp => content.push({...}))`. */
  method PushExperienceEntries(content: seq<ContentEntry>, relevant: seq<Item>) returns (r: seq<ContentEntry>)
    ensures r == content + ExperienceEntries(relevant)
  {
    r := content;
    var i := 0;
    while i < |relevant|
      invariant 0 <= i <= |relevant|
      invariant r == content + ExperienceEntries(relevant[..i])
    {
      ExperienceEntriesSnoc(relevant, i);
      r := r + [ExperienceEntryOf(relevant[i])];
      i := i + 1;
    }
    assert relevant[..i] == relevant;
  }

  /** `relevantProjects.forEach(project => content.push({...}))`. */
  method PushProjectEntries(content: seq<ContentEntry>, relevant: seq<Item>) returns (r: seq<ContentEntry>)
    ensures r == content + ProjectEntries(relevant)
  {
    r := content;
    var i := 0;
    while i < |relevant|
      invariant 0 <= i <= |relevant|
      invariant r == content + ProjectEntries(relevant[..i])
    {
      ProjectEntriesSnoc(relevant, i);
      r := r + [ProjectEntryOf(relevant[i])];
      i := i + 1;
    }
    assert relevant[..i] == relevant;
  }

  /** `prepareContentData(category)`: filters each list, then pushes one
      entry per selected experience and then one per selected project. */
  method PrepareContentData(category: string, experienceData: Option<ExperienceDoc>, projectsData: Option<ProjectsDoc>)
    returns (content: seq<ContentEntry>)
    ensures content == PreparedContent(category, experienceData, projectsData)
  {
    if experienceData.None? || projectsData.None? {
      return [];
    }
    content := [];
    var workExperience, projects := experienceData.value.workExperience, projectsData.value.projects;
    ghost var exps := RelevantExperiences(category, ListOrEmpty(workExperience));
    ghost var selected := RelevantProjects(category, ListOrEmpty(projects));
    if workExperience.Some? {
      content := PushExperienceEntries(content, RelevantExperiences(category, workExperience.value));
    } else {
      assert |exps| == 0;
    }
    assert content == ExperienceEntries(exps);
    if projects.Some? {
      content := PushProjectEntries(content, RelevantProjects(category, projects.value));
    } else {
      assert |selected| == 0;
      assert ProjectEntries(selected) == [];
    }
    assert content == ExperienceEntries(exps) + ProjectEntries(selected);
  }

  // ---------------------------------------------------------------------
  // The manager
  // ---------------------------------------------------------------------

  /** One topic card: its fixed title, icon and description, and the
      entries its modal lists. */
  datatype CardData = CardData(title: string, icon: string, description: string, content: seq<ContentEntry>)

  /** The three cards with the given entries. */
  function CardsWith(fintech: seq<ContentEntry>, media: seq<ContentEntry>, hobbies: seq<ContentEntry>): map<string, CardData>
  {
    map[
      "fintech" := CardData("Fintech", "\U{1F3E6}", "Building the future of finance", fintech),
      "media" := CardData("Media", "\U{1F4FA}", "Creating engaging digital experiences", media),
      "hobbies" := CardData("Hobbies", "\U{1F3AF}", "Passion projects and interests", hobbies)]
  }

  /** Each card of `CardsWith` holds the entries it was given. */
  lemma CardsWithContents(fintech: seq<ContentEntry>, media: seq<ContentEntry>, hobbies: seq<ContentEntry>)
    ensures var cards := CardsWith(fintech, media, hobbies);
      && "fintech" in cards && "media" in cards && "hobbies" in cards
      && cards["fintech"].content == fintech && cards["media"].content == media && cards["hobbies"].content == hobbies
  {
  }

  /** The cards before any data is loaded. */
  const InitialCards: map<string, CardData> := CardsWith([], [], [])

  /** The event `handleAreaClick` sends through `window.gtag`. */
  function SectionViewEvent(area: string): GtagEvent
  {
    GtagEvent("section_view", map["section_name" := Str(area), "event_category" := Str("engagement")])
  }

  /** The event `closeContent` sends through `window.gtag`. */
  function EngagementTimeEvent(area: string, duration: int): GtagEvent
  {
    GtagEvent("engagement_time", map["section_name" := Str(area), "duration" := Num(duration), "event_category" := Str("engagement")])
  }

  /** What a close reports for the open topic: its time on screen, when its
      start time is truthy. */
  function CloseEvents(currentArea: Option<string>, engagementStartTime: Option<int>, now: int): seq<GtagEvent>
    requires currentArea.Some? <==> engagementStartTime.Some?
  {
    if engagementStartTime.Some? && engagementStartTime.value != 0 then
      [EngagementTimeEvent(currentArea.value, now - engagementStartTime.value)]
    else []
  }

  class SubjectAreaManager {
    var experienceData: Option<ExperienceDoc>
    var projectsData: Option<ProjectsDoc>
    var cardData: map<string, CardData>
    /** The modal overlay and its title, description and body elements are
        all in the page. */
    const modalFound: bool
    /** The modal overlay carries the `active` class. */
    var modalActive: bool
    var modalTitle: string
    var modalDescription: string
    var modalBody: seq<ContentEntry>
    var currentArea: Option<string>
    /** `Date.now()` at the last click, in milliseconds. */
    var engagementStartTime: Option<int>
    /** The 300 ms timers `closeContent` started that have not fired yet. */
    var pendingClears: nat
    /** `window.gtag`; null when it is not there. */
    const gtag: Gtag?
    /** `window.app.analytics`; null when the page has none. */
    const analytics: AnalyticsManager?

    /** The `gtag` the analytics manager reports to, if any. */
    ghost function Sink(): Gtag?
    {
      if analytics == null then null else analytics.gtag
    }

    /** An open topic has a start time and the other way round; the modal
        is only ever shown when it is in the page; the three cards keep
        their title, icon and description. */
    ghost predicate Valid()
      reads this
    {
      (currentArea.Some? <==> engagementStartTime.Some?)
      && (modalActive ==> modalFound)
      && "fintech" in cardData && "media" in cardData && "hobbies" in cardData
      && cardData == CardsWith(cardData["fintech"].content, cardData["media"].content, cardData["hobbies"].content)
    }

    constructor (modalFound: bool, gtag: Gtag?, analytics: AnalyticsManager?)
      ensures Valid() && cardData == InitialCards
      ensures this.modalFound == modalFound && this.gtag == gtag && this.analytics == analytics
      ensures experienceData.None? && projectsData.None?
      ensures currentArea.None? && engagementStartTime.None? && !modalActive && pendingClears == 0
    {
      this.modalFound := modalFound;
      this.gtag := gtag;
      this.analytics := analytics;
      experienceData := None;
      projectsData := None;
      cardData := InitialCards;
      CardsWithContents([], [], []);
      modalActive := false;
      modalTitle := "";
      modalDescription := "";
      modalBody := [];
      currentArea := None;
      engagementStartTime := None;
      pendingClears := 0;
    }

    /** `loadData`: stores the documents as far as loading got, and after a
        complete load fills the three cards' entries. A failure is caught. */
    method LoadData(outcome: LoadOutcome)
      requires Valid()
      modifies this`experienceData, this`projectsData, this`cardData
      ensures Valid()
      ensures outcome.FailedEarly? ==>
        experienceData == old(experienceData) && projectsData == old(projectsData) && cardData == old(cardData)
      ensures outcome.FailedAtProjects? ==>
        experienceData == outcome.experience && projectsData == old(projectsData) && cardData == old(cardData)
      ensures outcome.Parsed? ==>
        && experienceData == outcome.experience && projectsData == outcome.projects
        && cardData == CardsWith(PreparedContent("fintech", experienceData, projectsData),
                                 PreparedContent("media", experienceData, projectsData),
                                 PreparedContent("hobbies", experienceData, projectsData))
    {
      match outcome
      case FailedEarly =>
      case FailedAtProjects(experience) =>
        experienceData := experience;
      case Parsed(experience, projects) =>
        experienceData := experience;
        projectsData := projects;
        var fintech := PrepareContentData("fintech", experienceData, projectsData);
        var media := PrepareContentData("media", experienceData, projectsData);
        var hobbies := PrepareContentData("hobbies", experienceData, projectsData);
        cardData := CardsWith(fintech, media, hobbies);
        CardsWithContents(fintech, media, hobbies);
    }

    /** `handleAreaHover`: reports the hover; the card animation is not
        modelled. */
    method HandleAreaHover(area: string, action: string, page: Page)
      modifies Sink()
      ensures Sink() != null ==> Sink().sent == old(Sink().sent) + [EngagementEvent(area, action, None, page)]
    {
      if analytics != null {
        analytics.TrackSubjectAreaEngagement(area, action, None, page);
      }
    }

    /** `handleAreaClick(area)` at time `now`: opens the topic (replacing an
        open one without reporting it), sends `section_view`, and shows the
        card's entries. */
    method HandleAreaClick(area: string, now: int)
      requires Valid()
      modifies this`currentArea, this`engagementStartTime, this`modalActive, this`modalTitle,
        this`modalDescription, this`modalBody, gtag
      ensures Valid()
      ensures currentArea == Some(area) && engagementStartTime == Some(now)
      ensures cardData == old(cardData) && pendingClears == old(pendingClears)
      ensures area in cardData && modalFound ==>
        modalActive && modalTitle == cardData[area].title
        && modalDescription == cardData[area].description && modalBody == cardData[area].content
      ensures !(area in cardData && modalFound) ==>
        modalActive == old(modalActive) && modalTitle == old(modalTitle)
        && modalDescription == old(modalDescription) && modalBody == old(modalBody)
      ensures gtag != null ==> gtag.sent == old(gtag.sent) + [SectionViewEvent(area)]
    {
      engagementStartTime := Some(now);
      currentArea := Some(area);
      if gtag != null {
        gtag.Send(SectionViewEvent(area));
      }
      ShowContent(area);
    }

    /** `showContent(area)`: does nothing for a key that is not a card or
        when the modal is not in the page. */
    method ShowContent(area: string)
      modifies this`modalActive, this`modalTitle, this`modalDescription, this`modalBody
      ensures area in cardData && modalFound ==>
        modalActive && modalTitle == cardData[area].title
        && modalDescription == cardData[area].description && modalBody == cardData[area].content
      ensures !(area in cardData && modalFound) ==>
        modalActive == old(modalActive) && modalTitle == old(modalTitle)
        && modalDescription == old(modalDescription) && modalBody == old(modalBody)
    {
      if area !in cardData {
        return;
      }
      var data := cardData[area];
      if !modalFound {
        return;
      }
      modalTitle := data.title;
      modalDescription := data.description;
      modalBody := data.content;
      modalActive := true;
    }

    /** `closeContent` at time `now`: reports the time spent on the open
        topic when its start time is truthy, hides the modal and starts the
        300 ms timer that will clear the topic and its start time. */
    method CloseContent(now: int)
      requires Valid()
      modifies this`modalActive, this`pendingClears, gtag
      ensures Valid()
      ensures !modalActive
      ensures currentArea == old(currentArea) && engagementStartTime == old(engagementStartTime)
      ensures pendingClears == old(pendingClears) + 1
      ensures cardData == old(cardData) && modalBody == old(modalBody)
      ensures gtag != null ==> gtag.sent == old(gtag.sent) + CloseEvents(old(currentArea), old(engagementStartTime), now)
    {
      if engagementStartTime.Some? && engagementStartTime.value != 0 && gtag != null {
        gtag.Send(EngagementTimeEvent(currentArea.value, now - engagementStartTime.value));
      }
      if modalFound {
        modalActive := false;
      }
      pendingClears := pendingClears + 1;
    }

    /** One of the timers `closeContent` started fires and clears the topic
        and its start time, whatever they are by then. */
    method ClearTimerFires()
      requires Valid() && pendingClears > 0
      modifies this`currentArea, this`engagementStartTime, this`pendingClears
      ensures Valid()
      ensures currentArea.None? && engagementStartTime.None? && pendingClears == old(pendingClears) - 1
    {
      currentArea := None;
      engagementStartTime := None;
      pendingClears := pendingClears - 1;
    }

    /** The `keydown` handler: Escape closes, and only while a topic is
        open (a non-empty `currentArea`). */
    method OnKeyDown(key: string, now: int)
      requires Valid()
      modifies this`modalActive, this`pendingClears, gtag
      ensures Valid()
      ensures currentArea == old(currentArea) && engagementStartTime == old(engagementStartTime)
      ensures key == "Escape" && Truthy(old(currentArea)) ==>
        !modalActive
        && pendingClears == old(pendingClears) + 1
        && (gtag != null ==> gtag.sent == old(gtag.sent) + CloseEvents(old(currentArea), old(engagementStartTime), now))
      ensures !(key == "Escape" && Truthy(old(currentArea))) ==>
        pendingClears == old(pendingClears) && modalActive == old(modalActive)
        && (gtag != null ==> gtag.sent == old(gtag.sent))
    {
      if key == "Escape" && Truthy(currentArea) {
        CloseContent(now);
      }
    }
  }

  /** Until the clearing timer fires the topic stays open, so a second
      close (the button, then Escape) reports the same topic's time again. */
  method CloseThenEscape(m: SubjectAreaManager, now: int, later: int)
    requires m.Valid() && m.gtag != null
    requires m.engagementStartTime.Some? && m.engagementStartTime.value != 0 && Truthy(m.currentArea)
    modifies m, m.gtag
    ensures m.gtag.sent == old(m.gtag.sent)
      + [EngagementTimeEvent(old(m.currentArea).value, now - old(m.engagementStartTime).value),
         EngagementTimeEvent(old(m.currentArea).value, later - old(m.engagementStartTime).value)]
  {
    m.CloseContent(now);
    m.OnKeyDown("Escape", later);
  }

  /** A topic opened before the previous close's timer fired is cleared by
      that timer, so closing it reports nothing. */
  method QuickReopenIsNotReported(m: SubjectAreaManager, area: string, closed: int, reopened: int, later: int)
    requires m.Valid() && m.gtag != null
    modifies m, m.gtag
    ensures m.gtag.sent == old(m.gtag.sent)
      + CloseEvents(old(m.currentArea), old(m.engagementStartTime), closed) + [SectionViewEvent(area)]
  {
    m.CloseContent(closed);
    m.HandleAreaClick(area, reopened);
    m.ClearTimerFires();
    m.CloseContent(later);
  }
}
