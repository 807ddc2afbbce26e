/** The `SubjectAreaManager` of `src/js/subjectAreas.js`: the topic cards'
    click, hover, close and Escape handlers over the `currentArea` /
    `engagementStartTime` pair, and the sections `generateContentHTML`
    renders for a topic. The rendered HTML is modelled by its structure
    (which sections, which cards, what each card shows); animations are
    taken as finished at once. */
module SubjectAreas {
  import opened Records
  import opened DataProcessor
  import opened Analytics
  import opened Seqs

  // ---------------------------------------------------------------------
  // generateContentHTML
  // ---------------------------------------------------------------------

  /** What an experience card shows. Text fields are the record's fields as
      a template literal prints them. */
  datatype ExperienceCard = ExperienceCard(
    position: string,
    company: string,
    location: string,
    duration: string,
    description: string,
    achievements: Option<seq<string>>,
    skills: seq<string>)

  /** What a project card shows. */
  datatype ProjectCard = ProjectCard(
    icon: string,
    title: string,
    year: string,
    company: string,
    description: string,
    technologies: seq<string>)

  /** What a blog card shows; the image only when the post has one. */
  datatype BlogCard = BlogCard(title: string, date: string, excerpt: string, image: Option<string>)

  datatype Section =
    | ExperienceSection(experienceCards: seq<ExperienceCard>)
    | ProjectsSection(projectCards: seq<ProjectCard>)
    | BlogSection(blogCards: seq<BlogCard>)

  /** The position of a section kind on the page. */
  function Rank(s: Section): nat
  {
    match s
    case ExperienceSection(_) => 0
    case ProjectsSection(_) => 1
    case BlogSection(_) => 2
  }

  /** One experience card. `exp.skills.map(...)` throws when the record has
      no skills. */
  function ExperienceCardOf(exp: Item): Result<ExperienceCard>
  {
    if exp.skills.None? then TypeError
    else Ok(ExperienceCard(
      Interpolate(exp.position),
      Interpolate(exp.company),
      Interpolate(exp.location),
      Interpolate(exp.startDate) + " - " + OrElse(exp.endDate, "Present"),
      Interpolate(exp.description),
      exp.achievements,
      exp.skills.value))
  }

  /** An experience card ends its dates with "Present" exactly when the
      record has no (or an empty) end date, and lists achievements exactly
      when the record has an achievements list, even an empty one. */
  lemma ExperienceCardDates(exp: Item)
    requires exp.skills.Some?
    ensures var card := ExperienceCardOf(exp).value;
      && card.duration == Interpolate(exp.startDate) + " - " + (if Truthy(exp.endDate) then exp.endDate.value else "Present")
      && (card.achievements.Some? <==> exp.achievements.Some?)
      && card.skills == exp.skills.value
  {
  }

  /** `experiences.map(...)`: all the cards, or a throw as soon as one
      record has no skills. */
  function ExperienceCards(exps: seq<Item>): (r: Result<seq<ExperienceCard>>)
    ensures r.Ok? <==> forall e :: e in exps ==> e.skills.Some?
    ensures r.Ok? ==> |r.value| == |exps| && forall i :: 0 <= i < |exps| ==> ExperienceCardOf(exps[i]) == Ok(r.value[i])
  {
    if exps == [] then Ok([])
    else
      var first, rest := ExperienceCardOf(exps[0]), ExperienceCards(exps[1..]);
      assert forall e :: e in exps <==> e == exps[0] || e in exps[1..];
      if first.TypeError? || rest.TypeError? then TypeError
      else
        assert forall i :: 1 <= i < |exps| ==> exps[i] == exps[1..][i - 1];
        Ok([first.value] + rest.value)
  }

  /** One project card. `project.technologies.map(...)` throws when the
      record has no technologies. */
  function ProjectCardOf(project: Item): Result<ProjectCard>
  {
    if project.technologies.None? then TypeError
    else Ok(ProjectCard(
      Interpolate(project.icon),
      Interpolate(project.title),
      Interpolate(project.year),
      Interpolate(project.company),
      Interpolate(project.description),
      project.technologies.value))
  }

  /** `projects.map(...)`: all the cards, or a throw as soon as one record
      has no technologies. */
  function ProjectCards(projects: seq<Item>): (r: Result<seq<ProjectCard>>)
    ensures r.Ok? <==> forall p :: p in projects ==> p.technologies.Some?
    ensures r.Ok? ==> |r.value| == |projects| && forall i :: 0 <= i < |projects| ==> ProjectCardOf(projects[i]) == Ok(r.value[i])
  {
    if projects == [] then Ok([])
    else
      var first, rest := ProjectCardOf(projects[0]), ProjectCards(projects[1..]);
      assert forall p :: p in projects <==> p == projects[0] || p in projects[1..];
      if first.TypeError? || rest.TypeError? then TypeError
      else
        assert forall i :: 1 <= i < |projects| ==> projects[i] == projects[1..][i - 1];
        Ok([first.value] + rest.value)
  }

  /** One blog card; the image is shown only when the post's image is a
      non-empty string. */
  function BlogCardOf(post: BlogPost): (card: BlogCard)
    ensures card.image.Some? <==> Truthy(post.image)
    ensures card.image.Some? ==> card.image == post.image
  {
    BlogCard(post.title, post.date, post.excerpt, if Truthy(post.image) then post.image else None)
  }

  function BlogCards(posts: seq<BlogPost>): seq<BlogCard>
  {
    seq(|posts|, i requires 0 <= i < |posts| => BlogCardOf(posts[i]))
  }

  /** The sections of a topic's body, as `generateContentHTML` builds them. */
  function ContentSections(area: string, content: Content): Result<seq<Section>>
  {
    var experiences := if |content.experiences| > 0 then ExperienceCards(content.experiences) else Ok([]);
    var projects := if |content.projects| > 0 then ProjectCards(content.projects) else Ok([]);
    if experiences.TypeError? || projects.TypeError? then TypeError
    else Ok(
      (if |content.experiences| > 0 then [ExperienceSection(experiences.value)] else [])
      + (if |content.projects| > 0 then [ProjectsSection(projects.value)] else [])
      + (if area == "hobbies" && content.blogPosts.Some? then [BlogSection(BlogCards(content.blogPosts.value))] else []))
  }

  /** The Experience, Projects and Blog parts `generateContentHTML` joins,
      each empty when its section is not shown. */
  function SectionParts(area: string, content: Content): (seq<Section>, seq<Section>, seq<Section>)
    requires ContentSections(area, content).Ok?
  {
    ((if |content.experiences| > 0 then [ExperienceSection(ExperienceCards(content.experiences).value)] else []),
     (if |content.projects| > 0 then [ProjectsSection(ProjectCards(content.projects).value)] else []),
     (if area == "hobbies" && content.blogPosts.Some? then [BlogSection(BlogCards(content.blogPosts.value))] else []))
  }

  /** Rendering throws exactly when an experience lacks skills or a project
      lacks technologies. */
  lemma SectionsThrowIff(area: string, content: Content)
    ensures ContentSections(area, content).Ok? <==>
      (forall e :: e in content.experiences ==> e.skills.Some?)
      && (forall p :: p in content.projects ==> p.technologies.Some?)
  {
  }

  /** The sections come in the order Experience, Projects, Blog, each at
      most once. */
  lemma {:induction false} SectionsOrdered(area: string, content: Content)
    requires ContentSections(area, content).Ok?
    ensures var r := ContentSections(area, content).value;
      forall i, j :: 0 <= i < j < |r| ==> Rank(r[i]) < Rank(r[j])
  {
    var r := ContentSections(area, content).value;
    var (e, p, b) := SectionParts(area, content);
    assert r == e + p + b;
    forall i | 0 <= i < |r|
      ensures Rank(r[i]) == if i < |e| then 0 else if i < |e| + |p| then 1 else 2
    {
      if i < |e| {
        assert r[i] == e[i];
      } else if i < |e| + |p| {
        assert r[i] == p[i - |e|];
      } else {
        assert r[i] == b[i - |e| - |p|];
      }
    }
  }

  /** There is an Experience section iff there are experiences, a Projects
      section iff there are projects, and a Blog section iff the area is
      hobbies and the content has blog posts. */
  lemma SectionsPresent(area: string, content: Content)
    requires ContentSections(area, content).Ok?
    ensures var r := ContentSections(area, content).value;
      && ((exists s :: s in r && s.ExperienceSection?) <==> |content.experiences| > 0)
      && ((exists s :: s in r && s.ProjectsSection?) <==> |content.projects| > 0)
      && ((exists s :: s in r && s.BlogSection?) <==> area == "hobbies" && content.blogPosts.Some?)
  {
    var r := ContentSections(area, content).value;
    var (e, p, b) := SectionParts(area, content);
    assert r == e + p + b;
    forall s | s in r
      ensures s in e || s in p || s in b
    {
    }
    if e != [] {
      assert r[0] == e[0];
    }
    if p != [] {
      assert r[|e|] == p[0];
    }
    if b != [] {
      assert r[|e| + |p|] == b[0];
    }
  }

  /** Each section has one card per record, in record order. */
  lemma SectionsCards(area: string, content: Content)
    requires ContentSections(area, content).Ok?
    ensures var r := ContentSections(area, content).value;
      && (forall s :: s in r && s.ExperienceSection? ==>
            |s.experienceCards| == |content.experiences|
            && forall i :: 0 <= i < |content.experiences| ==> ExperienceCardOf(content.experiences[i]) == Ok(s.experienceCards[i]))
      && (forall s :: s in r && s.ProjectsSection? ==>
            |s.projectCards| == |content.projects|
            && forall i :: 0 <= i < |content.projects| ==> ProjectCardOf(content.projects[i]) == Ok(s.projectCards[i]))
      && (forall s :: s in r && s.BlogSection? ==>
            content.blogPosts.Some? && s.blogCards == BlogCards(content.blogPosts.value))
  {
    var r := ContentSections(area, content).value;
    var (e, p, b) := SectionParts(area, content);
    assert r == e + p + b;
    forall s | s in r
      ensures s in e || s in p || s in b
    {
    }
  }

  /** `generateContentHTML(area, content)`: appends the Experience, the
      Projects and the Blog section in turn, each only when its rule holds;
      a card that cannot be rendered throws out of the whole call. */
  method GenerateContentHTML(area: string, content: Content) returns (html: Result<seq<Section>>)
    ensures html == ContentSections(area, content)
  {
    var sections: seq<Section> := [];
    if |content.experiences| > 0 {
      var cards := ExperienceCards(content.experiences);
      if cards.TypeError? {
        return TypeError;
      }
      sections := sections + [ExperienceSection(cards.value)];
    }
    ghost var experience := sections;
    if |content.projects| > 0 {
      var cards := ProjectCards(content.projects);
      if cards.TypeError? {
        return TypeError;
      }
      sections := sections + [ProjectsSection(cards.value)];
    }
    ghost var projects := sections[|experience|..];
    assert sections == experience + projects;
    if area == "hobbies" && content.blogPosts.Some? {
      sections := sections + [BlogSection(BlogCards(content.blogPosts.value))];
    }
    assert sections == experience + projects + sections[|experience| + |projects|..];
    assert ContentSections(area, content).Ok?;
    assert experience == if |content.experiences| > 0 then [ExperienceSection(ExperienceCards(content.experiences).value)] else [];
    assert projects == if |content.projects| > 0 then [ProjectsSection(ProjectCards(content.projects).value)] else [];
    return Ok(sections);
  }

  // ---------------------------------------------------------------------
  // The manager
  // ---------------------------------------------------------------------

  /** The content display: whether it carries the `active` class, the text
      of its title and description elements, and its rendered body. */
  datatype Display = Display(active: bool, title: string, description: string, body: seq<Section>)

  /** What `showContent` does to the display, and whether it throws.
      Reading the content of an unloaded topic throws before anything is
      touched. Otherwise the title and description are replaced first and
      the body is rendered after, so a card that cannot be rendered throws
      with the new title shown over the old body; a rendered body is shown
      and the display activated. */
  function ShowTopic(display: Display, store: Store, area: string): (r: (Result<()>, Display))
    ensures var content := GetContentForArea(store, area);
      && (r.0.Ok? <==> content.Ok? && ContentSections(area, content.value).Ok?)
      && (content.TypeError? ==> r.1 == display)
      && (content.Ok? ==> r.1.title == content.value.title && r.1.description == content.value.description)
      && (r.0.TypeError? ==> r.1.active == display.active && r.1.body == display.body)
      && (r.0.Ok? ==> r.1.active && r.1.body == ContentSections(area, content.value).value)
  {
    var content := GetContentForArea(store, area);
    if content.TypeError? then (TypeError, display)
    else
      var titled := display.(title := content.value.title, description := content.value.description);
      var sections := ContentSections(area, content.value);
      if sections.TypeError? then (TypeError, titled) else (Ok(()), titled.(active := true, body := sections.value))
  }

  /** Showing the same topic again changes nothing more: the second click
      on a topic renders the display the first one left. */
  lemma ShowTopicTwice(display: Display, store: Store, area: string)
    ensures var once := ShowTopic(display, store, area);
      ShowTopic(once.1, store, area) == once
  {
  }

  /** The events a click on `area` sends: the click, then the content view
      when the content rendered. */
  function ClickEvents(area: string, page: Page, rendered: bool): seq<GtagEvent>
  {
    [EngagementEvent(area, "click", None, page)] + if rendered then [ContentViewEvent(area, "detailed_view")] else []
  }

  /** The event a close sends for the open topic, if its start time is
      truthy. */
  function CloseEvents(currentArea: Option<string>, engagementStartTime: Option<int>, now: int, page: Page): seq<GtagEvent>
    requires currentArea.Some? <==> engagementStartTime.Some?
  {
    if engagementStartTime.Some? && engagementStartTime.value != 0 then
      [EngagementEvent(currentArea.value, "close", Some(now - engagementStartTime.value), page)]
    else []
  }

  class SubjectAreaManager {
    /** The fields of the manager's `DataProcessor`. */
    var store: Store
    /** `window.app.analytics`; null when the page has none. */
    const analytics: AnalyticsManager?
    var currentArea: Option<string>
    /** `Date.now()` at the last click, in milliseconds. */
    var engagementStartTime: Option<int>
    /** The content display element and its children. */
    var display: Display

    /** The `gtag` the analytics manager reports to, if any. */
    ghost function Sink(): Gtag?
    {
      if analytics == null then null else analytics.gtag
    }

    /** An open topic has a start time and the other way round, and the
        display is only active with a topic open. */
    ghost predicate Valid()
      reads this
    {
      (currentArea.Some? <==> engagementStartTime.Some?)
      && (display.active ==> currentArea.Some?)
    }

    constructor (analytics: AnalyticsManager?)
      ensures Valid() && this.analytics == analytics
      ensures store == Store(None, None, None)
      ensures currentArea.None? && engagementStartTime.None? && !display.active
    {
      this.analytics := analytics;
      store := Store(None, None, None);
      currentArea := None;
      engagementStartTime := None;
      display := Display(false, "", "", []);
    }

    /** `loadData`: runs the processor's load; its failure is caught. */
    method LoadData(outcome: LoadOutcome)
      modifies this`store
      ensures store == LoadAllData(old(store), outcome)
    {
      store := LoadAllData(store, outcome);
    }

    /** `handleAreaHover`: reports the hover; the card animation is not
        modelled. */
    method HandleAreaHover(area: string, action: string, page: Page)
      modifies Sink()
      ensures Sink() != null ==> Sink().sent == old(Sink().sent) + [EngagementEvent(area, action, None, page)]
    {
      if analytics != null {
        analytics.TrackSubjectAreaEngagement(area, action, None, page);
      }
    }

    /** `handleAreaClick(area)` at time `now`: opens the topic (replacing an
        open one without reporting its close), reports the click, and shows
        the content. */
    method HandleAreaClick(area: string, now: int, page: Page) returns (outcome: Result<()>)
      requires Valid()
      modifies this, Sink()
      ensures Valid()
      ensures currentArea == Some(area) && engagementStartTime == Some(now)
      ensures store == old(store)
      ensures (outcome, display) == ShowTopic(old(display), store, area)
      ensures Sink() != null ==> Sink().sent == old(Sink().sent) + ClickEvents(area, page, outcome.Ok?)
    {
      BeginEngagement(area, now, page);
      assert display == old(display) && store == old(store);
      ghost var clicked := if Sink() != null then Sink().sent else [];
      outcome := ShowContent(area);
      if Sink() != null {
        var viewed := if outcome.Ok? then [ContentViewEvent(area, "detailed_view")] else [];
        assert Sink().sent == clicked + viewed;
        AppendAssoc(old(Sink().sent), [EngagementEvent(area, "click", None, page)], viewed);
      }
    }

    /** The first half of `handleAreaClick`: records the topic and the
        start time and reports the click. */
    method BeginEngagement(area: string, now: int, page: Page)
      modifies this`currentArea, this`engagementStartTime, Sink()
      ensures currentArea == Some(area) && engagementStartTime == Some(now)
      ensures Sink() != null ==> Sink().sent == old(Sink().sent) + [EngagementEvent(area, "click", None, page)]
    {
      engagementStartTime := Some(now);
      currentArea := Some(area);
      if analytics != null {
        analytics.TrackSubjectAreaEngagement(area, "click", None, page);
      }
    }

    /** `showContent`: renders the topic's content and activates the
        display, reporting the view once the body is rendered. */
    method ShowContent(area: string) returns (outcome: Result<()>)
      requires Valid() && currentArea.Some?
      modifies this`display, Sink()
      ensures Valid()
      ensures (outcome, display) == ShowTopic(old(display), store, area)
      ensures Sink() != null ==>
        Sink().sent == old(Sink().sent) + if outcome.Ok? then [ContentViewEvent(area, "detailed_view")] else []
    {
      var content := GetContentForArea(store, area);
      if content.TypeError? {
        return TypeError;
      }
      ghost var titled := display.(title := content.value.title, description := content.value.description);
      outcome := RenderContent(area, content.value);
      if outcome.Ok? {
        display := display.(active := true);
        assert display == titled.(active := true, body := ContentSections(area, content.value).value);
        assert outcome.value == ();
      } else {
        assert display == titled;
      }
    }

    /** `renderContent`: sets the title and description, renders the body
        and reports the view. */
    method RenderContent(area: string, content: Content) returns (outcome: Result<()>)
      modifies this`display, Sink()
      ensures outcome.Ok? <==> ContentSections(area, content).Ok?
      ensures display == old(display).(title := content.title, description := content.description,
        body := if outcome.Ok? then ContentSections(area, content).value else old(display).body)
      ensures Sink() != null ==>
        Sink().sent == old(Sink().sent) + if outcome.Ok? then [ContentViewEvent(area, "detailed_view")] else []
    {
      display := display.(title := content.title, description := content.description);
      var html := GenerateContentHTML(area, content);
      if html.TypeError? {
        return TypeError;
      }
      display := display.(body := html.value);
      if analytics != null {
        analytics.TrackContentView(area, "detailed_view");
      }
      return Ok(());
    }

    /** `closeContent` at time `now`: reports the time spent on the open
        topic when its start time is truthy, then hides the display and
        clears the topic and its start time, whatever they were. */
    method CloseContent(now: int, page: Page)
      requires Valid()
      modifies this, Sink()
      ensures Valid()
      ensures currentArea.None? && engagementStartTime.None?
      ensures display == old(display).(active := false) && store == old(store)
      ensures Sink() != null ==>
        Sink().sent == old(Sink().sent) + CloseEvents(old(currentArea), old(engagementStartTime), now, page)
    {
      if engagementStartTime.Some? && engagementStartTime.value != 0 && analytics != null {
        var duration := now - engagementStartTime.value;
        analytics.TrackSubjectAreaEngagement(currentArea.value, "close", Some(duration), page);
      }
      display := display.(active := false);
      currentArea := None;
      engagementStartTime := None;
    }

    /** The `keydown` handler: Escape closes the content, and only while the
        display is active. */
    method OnKeyDown(key: string, now: int, page: Page)
      requires Valid()
      modifies this, Sink()
      ensures Valid()
      ensures store == old(store)
      ensures key == "Escape" && old(display.active) ==>
        currentArea.None? && engagementStartTime.None? && display == old(display).(active := false)
        && (Sink() != null ==> Sink().sent == old(Sink().sent) + CloseEvents(old(currentArea), old(engagementStartTime), now, page))
      ensures !(key == "Escape" && old(display.active)) ==>
        currentArea == old(currentArea) && engagementStartTime == old(engagementStartTime)
        && display == old(display)
        && (Sink() != null ==> Sink().sent == old(Sink().sent))
    {
      if key == "Escape" && display.active {
        CloseContent(now, page);
      }
    }
  }

  /** Closing twice in a row reports at most one close, and the second close
      reports nothing. */
  method CloseTwice(m: SubjectAreaManager, now: int, later: int, page: Page)
    requires m.Valid()
    modifies m, m.Sink()
    ensures m.Valid() && m.currentArea.None? && m.engagementStartTime.None?
    ensures m.Sink() != null ==>
      m.Sink().sent == old(m.Sink().sent) + CloseEvents(old(m.currentArea), old(m.engagementStartTime), now, page)
  {
    m.CloseContent(now, page);
    ghost var between := if m.Sink() != null then m.Sink().sent else [];
    m.CloseContent(later, page);
    assert m.Sink() != null ==> m.Sink().sent == between;
  }

  /** A click reports the click and, when the content renders, the view,
      and a close right after it reports the time spent since the click. */
  method ClickThenClose(m: SubjectAreaManager, area: string, clicked: int, closed: int, page: Page)
    requires m.Valid() && clicked != 0
    modifies m, m.Sink()
    ensures m.Valid() && m.currentArea.None? && !m.display.active
    ensures m.Sink() != null ==>
      exists rendered: bool ::
        m.Sink().sent == old(m.Sink().sent) + ClickEvents(area, page, rendered)
          + [EngagementEvent(area, "close", Some(closed - clicked), page)]
  {
    var outcome := m.HandleAreaClick(area, clicked, page);
    ghost var afterClick := if m.Sink() != null then m.Sink().sent else [];
    m.CloseContent(closed, page);
    if m.Sink() != null {
      assert CloseEvents(Some(area), Some(clicked), closed, page) == [EngagementEvent(area, "close", Some(closed - clicked), page)];
      assert m.Sink().sent == afterClick + [EngagementEvent(area, "close", Some(closed - clicked), page)];
      assert afterClick == old(m.Sink().sent) + ClickEvents(area, page, outcome.Ok?);
    }
  }
}
