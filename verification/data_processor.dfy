/** The `DataProcessor` of `src/js/dataProcessor.js`: the keyword classifier
    that sorts the loaded experience and project records into the three
    topics of the site (fintech, media, hobbies), the unfiltered default
    view, the skill list of a topic and the per-topic statistics.

    Every operation here only reads the processor's fields, so the fields
    are passed in as a `Store` value. */
module DataProcessor {
  import opened Records
  import opened JsText
  import opened Seqs

  const FintechKeywords: seq<string> :=
    ["cryptocurrency", "crypto", "blockchain", "NEM", "bitcoin",
     "fintech", "investment", "wallet", "financial", "market"]

  const MediaKeywords: seq<string> :=
    ["media", "creative", "content", "interview", "video", "photo",
     "marketing", "copywriting", "film", "podcast", "generative"]

  const HobbiesKeywords: seq<string> :=
    ["python", "microbit", "STEM", "education", "IoT",
     "hardware", "3D", "AI", "teaching"]

  /** The company whose record the media topic always shows. */
  const PinnedMediaCompany := "Temporary Truth Creative"

  const Topics: set<string> := {"fintech", "media", "hobbies"}

  /** The keyword list each topic filters by. */
  function TopicKeywords(area: string): seq<string>
  {
    if area == "fintech" then FintechKeywords
    else if area == "media" then MediaKeywords
    else if area == "hobbies" then HobbiesKeywords
    else []
  }

  datatype MediaAsset = MediaAsset(kind: string, description: string, placeholder: string)

  /** What `getContentForArea` returns. The fintech topic alone has
      insights and the media topic alone has media assets; other topics
      leave those lists empty. Only the hobbies topic has `blogPosts`. */
  datatype Content = Content(
    title: string,
    description: string,
    experiences: seq<Item>,
    projects: seq<Item>,
    insights: seq<string>,
    mediaAssets: seq<MediaAsset>,
    blogPosts: Option<seq<BlogPost>>)

  /** The processor's fields: `experienceData`, `projectsData` and
      `blogPosts`, each `null` (None) until `loadAllData` assigns it. */
  datatype Store = Store(
    experienceData: Option<ExperienceDoc>,
    projectsData: Option<ProjectsDoc>,
    blogPosts: Option<seq<BlogPost>>)

  /** `this.experienceData.workExperience`; None when either link is
      missing. */
  function WorkExperience(store: Store): Option<seq<Item>>
  {
    if store.experienceData.Some? then store.experienceData.value.workExperience else None
  }

  /** `this.projectsData.projects`; None when either link is missing. */
  function ProjectList(store: Store): Option<seq<Item>>
  {
    if store.projectsData.Some? then store.projectsData.value.projects else None
  }

  /** Both record lists are there to be filtered. */
  predicate Loaded(store: Store)
  {
    WorkExperience(store).Some? && ProjectList(store).Some?
  }

  /** `createBlogPlaceholders`: the blog teasers stored by a complete load. */
  const BlogPlaceholders: seq<BlogPost> := [
    BlogPost("Casascius Coins & 3D Printing for Crypto Events", "Coming Soon",
      "How I use 3D printing to create thoughtful memorabilia for cryptocurrency promotional events, including custom Casascius coin displays and educational materials.",
      Some("/images/casascius-placeholder.jpg"), ["3D Printing", "Cryptocurrency", "Events", "Memorabilia"]),
    BlogPost("Teaching Kids Hardware Security with BBC Micro:bit", "Coming Soon",
      "Foundational understanding of hardware wallets and IoT security through hands-on Python programming with young learners.",
      Some("/images/microbit-placeholder.jpg"), ["Education", "Hardware Security", "Python", "IoT", "BBC Micro:bit"]),
    BlogPost("AI Video Generation: From Concept to Marketing", "Coming Soon",
      "Experimenting with generative AI video tools for marketing applications. See my short AI-generated video example in action.",
      Some("/images/mangowhat.gif"), ["AI", "Video Generation", "Marketing", "Creative Tech"]),
    BlogPost("System 1 vs System 2: UX Psychology in Crypto", "Coming Soon",
      "Applying behavioral psychology principles to make cryptocurrency interfaces more intuitive and user-friendly.",
      Some("/images/psychology-placeholder.jpg"), ["UX Design", "Psychology", "Cryptocurrency", "User Experience"])
  ]

  /** `loadAllData`: the fields after loading ended as `outcome`. The
      assignments run in order, so a failure keeps the fields assigned
      before it; the blog posts are stored only by a complete load. */
  function LoadAllData(store: Store, outcome: LoadOutcome): (r: Store)
    ensures r.blogPosts.Some? <==> outcome.Parsed? || store.blogPosts.Some?
    ensures outcome.FailedEarly? ==> r == store
    ensures outcome.FailedAtProjects? ==>
      r.experienceData == outcome.experience && r.projectsData == store.projectsData && r.blogPosts == store.blogPosts
    ensures outcome.Parsed? ==>
      r.experienceData == outcome.experience && r.projectsData == outcome.projects && r.blogPosts == Some(BlogPlaceholders)
  {
    match outcome
    case FailedEarly => store
    case FailedAtProjects(experience) => store.(experienceData := experience)
    case Parsed(experience, projects) => Store(experience, projects, Some(BlogPlaceholders))
  }

  /** After a complete load of two documents that both carry their lists,
      every topic can be shown and the statistics can be computed. */
  lemma CompleteLoadEnablesTopics(store: Store, experience: seq<Item>, projects: seq<Item>, area: string)
    ensures var loaded := LoadAllData(store, Parsed(Some(ExperienceDoc(Some(experience))), Some(ProjectsDoc(Some(projects)))));
      && GetContentForArea(loaded, area).Ok?
      && GetAreaStatistics(loaded).Ok?
      && GetAreaStatistics(loaded).value.hobbies.blogPosts == Some(4)
  {
  }

  // ---------------------------------------------------------------------
  // filterByKeywords
  // ---------------------------------------------------------------------

  /** The strings `filterByKeywords` joins into an item's search text, in
      order: description, position (or, when that is missing or empty,
      title), company, then every skill, technology, tag and achievement. */
  function SearchParts(item: Item): seq<string>
  {
    [OrElse(item.description, ""), OrElse(item.position, OrElse(item.title, "")), OrElse(item.company, "")]
    + ListOrEmpty(item.skills) + ListOrEmpty(item.technologies)
    + ListOrEmpty(item.tags) + ListOrEmpty(item.achievements)
  }

  /** The space-joined, lower-cased search text of an item. */
  function SearchText(item: Item): string
  {
    Lower(Join(SearchParts(item), " "))
  }

  /** `keywords.some(keyword => searchText.includes(keyword.toLowerCase()))`. */
  predicate Matches(item: Item, keywords: seq<string>)
  {
    exists k :: k in keywords && Contains(SearchText(item), Lower(k))
  }

  /** `items.filter(...)`: the items whose search text contains some
      keyword, in their original order, duplicates included. */
  function FilterByKeywords(items: seq<Item>, keywords: seq<string>): (kept: seq<Item>)
    ensures IsSubsequence(kept, items)
    ensures |kept| <= |items|
    ensures forall x :: x in kept <==> x in items && Matches(x, keywords)
    ensures forall x :: multiset(kept)[x] == if Matches(x, keywords) then multiset(items)[x] else 0
  {
    Filter(items, item => Matches(item, keywords))
  }

  /** With no keywords nothing is kept. */
  lemma FilterByNoKeywords(items: seq<Item>)
    ensures FilterByKeywords(items, []) == []
  {
  }

  /** An item is kept as soon as one of the strings it contributes contains
      a keyword, whatever the case of either. */
  lemma FieldMatchKept(items: seq<Item>, keywords: seq<string>, item: Item, i: int, k: string)
    requires item in items && k in keywords && 0 <= i < |SearchParts(item)|
    requires Contains(Lower(SearchParts(item)[i]), Lower(k))
    ensures item in FilterByKeywords(items, keywords)
  {
    var parts := SearchParts(item);
    JoinContainsPart(parts, " ", i);
    LowerPreservesContains(Join(parts, " "), parts[i]);
    ContainsTransitive(SearchText(item), Lower(parts[i]), Lower(k));
  }

  /** Keywords are compared lower-cased, so two keyword lists that agree up
      to case select the same items ('NEM', 'STEM', 'IoT', '3D' and 'AI'
      behave as 'nem', 'stem', 'iot', '3d' and 'ai'). */
  lemma KeywordCaseIgnored(item: Item, keywords: seq<string>, keywords': seq<string>)
    requires |keywords| == |keywords'|
    requires forall i :: 0 <= i < |keywords| ==> Lower(keywords[i]) == Lower(keywords'[i])
    ensures Matches(item, keywords) <==> Matches(item, keywords')
  {
    if Matches(item, keywords) {
      var k :| k in keywords && Contains(SearchText(item), Lower(k));
      var i :| 0 <= i < |keywords| && keywords[i] == k;
      assert keywords'[i] in keywords';
    }
    if Matches(item, keywords') {
      var k :| k in keywords' && Contains(SearchText(item), Lower(k));
      var i :| 0 <= i < |keywords'| && keywords'[i] == k;
      assert keywords[i] in keywords;
    }
  }

  /** The item's own text is compared lower-cased too: two items whose
      search strings agree up to case match the same keywords. */
  lemma TextCaseIgnored(item: Item, item': Item, keywords: seq<string>)
    requires LowerAll(SearchParts(item)) == LowerAll(SearchParts(item'))
    ensures Matches(item, keywords) <==> Matches(item', keywords)
  {
    LowerJoin(SearchParts(item), " ");
    LowerJoin(SearchParts(item'), " ");
  }

  /** `position || title`: the title is searched only when the position is
      missing or empty. */
  lemma TitleOnlyWithoutPosition(item: Item, title: Option<string>)
    ensures Truthy(item.position) ==> SearchText(item.(title := title)) == SearchText(item)
    ensures !Truthy(item.position) && Truthy(item.title) ==> SearchParts(item)[1] == item.title.value
  {
  }

  // ---------------------------------------------------------------------
  // The topic contents
  // ---------------------------------------------------------------------

  const FintechTitle := "Fintech & Blockchain"
  const FintechDescription := "10+ year outlook on cryptocurrency and financial technology innovation"
  const MediaTitle := "Creative & Media Services"
  const MediaDescription := "Content creation, interviewing, and strategic marketing from my first industry introduction"
  const HobbiesTitle := "Hobbies & Experiments"
  const HobbiesDescription := "Personal projects combining hardware, AI, and creative problem-solving"
  const DefaultTitle := "Vincent Virovac"
  const DefaultDescription := "Multi-disciplinary professional ready for new challenges"

  const FintechInsights: seq<string> :=
    ["Long-term perspective on cryptocurrency adoption",
     "Focus on utility over speculation",
     "Hardware wallet security expertise",
     "Market analysis and risk assessment"]

  const MediaAssets: seq<MediaAsset> :=
    [MediaAsset("interview", "Photo of me interviewing subjects", "/images/interview-placeholder.jpg"),
     MediaAsset("filming", "Behind-the-scenes filming work", "/images/filming-placeholder.jpg"),
     MediaAsset("team", "Group photo with TTC team", "/images/team-placeholder.jpg")]

  /** `getFintechContent`. Reading the record lists of an unloaded store
      throws. */
  function GetFintechContent(store: Store): Result<Content>
  {
    if !Loaded(store) then TypeError
    else Ok(Content(
      FintechTitle, FintechDescription,
      FilterByKeywords(WorkExperience(store).value, FintechKeywords),
      FilterByKeywords(ProjectList(store).value, FintechKeywords),
      FintechInsights, [], None))
  }

  /** `items.find(x => x.company === company)`: the first record of that
      company. */
  function FindByCompany(items: seq<Item>, company: string): (found: Option<Item>)
    ensures found.None? <==> forall x :: x in items ==> x.company != Some(company)
    ensures found.Some? ==>
      exists i :: 0 <= i < |items| && items[i] == found.value && found.value.company == Some(company)
        && forall j :: 0 <= j < i ==> items[j].company != Some(company)
  {
    if items == [] then None
    else if items[0].company == Some(company) then Some(items[0])
    else
      var found := FindByCompany(items[1..], company);
      assert forall x :: x in items ==> x == items[0] || x in items[1..];
      if found.Some? then
        var i :| 0 <= i < |items[1..]| && items[1..][i] == found.value && found.value.company == Some(company)
          && forall j :: 0 <= j < i ==> items[1..][j].company != Some(company);
        assert items[i + 1] == found.value;
        assert forall j :: 1 <= j < i + 1 ==> items[j] == items[1..][j - 1];
        found
      else found
  }

  /** The media topic's experiences: the keyword matches, then the first
      Temporary Truth Creative record appended when the filter did not
      already keep it. */
  function MediaExperiences(exps: seq<Item>): seq<Item>
  {
    var kept := FilterByKeywords(exps, MediaKeywords);
    var pinned := FindByCompany(exps, PinnedMediaCompany);
    if pinned.Some? && pinned.value !in kept then kept + [pinned.value] else kept
  }

  /** The pinned record is always shown, the pin adds it at most once and
      at the end, and the list stays no longer than the input. */
  lemma MediaPinnedOnce(exps: seq<Item>)
    ensures var result, kept := MediaExperiences(exps), FilterByKeywords(exps, MediaKeywords);
      && |result| <= |exps|
      && |result| <= |kept| + 1
      && result[..|kept|] == kept
      && (FindByCompany(exps, PinnedMediaCompany).None? ==> result == kept)
      && (FindByCompany(exps, PinnedMediaCompany).Some? ==>
            var pinned := FindByCompany(exps, PinnedMediaCompany).value;
            pinned in result
            && (pinned in kept ==> result == kept)
            && (pinned !in kept ==> result == kept + [pinned])
            && multiset(result)[pinned] == if pinned in kept then multiset(kept)[pinned] else 1)
  {
    var kept := FilterByKeywords(exps, MediaKeywords);
    var pinned := FindByCompany(exps, PinnedMediaCompany);
    if pinned.Some? && pinned.value !in kept {
      SubsequenceMissing(kept, exps, pinned.value);
      assert multiset(kept)[pinned.value] == 0;
    }
  }

  /** `experiences.includes(ttcExperience)` compares references, but the
      pinned record comes from the same list and the filter looks only at
      a record's value: the pinned record is kept exactly when it matches a
      media keyword, so comparing values decides the same way. */
  lemma PinnedKeptIffMatches(exps: seq<Item>)
    requires FindByCompany(exps, PinnedMediaCompany).Some?
    ensures var pinned := FindByCompany(exps, PinnedMediaCompany).value;
      pinned in FilterByKeywords(exps, MediaKeywords) <==> Matches(pinned, MediaKeywords)
  {
  }

  /** `getMediaContent`. */
  function GetMediaContent(store: Store): Result<Content>
  {
    if !Loaded(store) then TypeError
    else Ok(Content(
      MediaTitle, MediaDescription,
      MediaExperiences(WorkExperience(store).value),
      FilterByKeywords(ProjectList(store).value, MediaKeywords),
      [], MediaAssets, None))
  }

  /** `getHobbiesContent`: carries the processor's blog posts, which are
      `null` until loading finished. */
  function GetHobbiesContent(store: Store): Result<Content>
  {
    if !Loaded(store) then TypeError
    else Ok(Content(
      HobbiesTitle, HobbiesDescription,
      FilterByKeywords(WorkExperience(store).value, HobbiesKeywords),
      FilterByKeywords(ProjectList(store).value, HobbiesKeywords),
      [], [], store.blogPosts))
  }

  /** `getDefaultContent`: every record unfiltered, or empty lists while
      the data is not there; it never throws. */
  function GetDefaultContent(store: Store): (c: Content)
    ensures WorkExperience(store).None? ==> c.experiences == []
    ensures WorkExperience(store).Some? ==> c.experiences == WorkExperience(store).value
    ensures ProjectList(store).None? ==> c.projects == []
    ensures ProjectList(store).Some? ==> c.projects == ProjectList(store).value
    ensures c.blogPosts.None? && c.insights == [] && c.mediaAssets == []
  {
    Content(
      DefaultTitle, DefaultDescription,
      ListOrEmpty(WorkExperience(store)),
      ListOrEmpty(ProjectList(store)),
      [], [], None)
  }

  /** `getContentForArea`: the three topics are filtered views that need
      loaded data; any other key falls through to the unfiltered default. */
  function GetContentForArea(store: Store, area: string): (r: Result<Content>)
    ensures area !in Topics ==>
      r.Ok? && r.value.experiences == ListOrEmpty(WorkExperience(store))
      && r.value.projects == ListOrEmpty(ProjectList(store))
    ensures area in Topics ==> (r.Ok? <==> Loaded(store))
    ensures r.Ok? && r.value.blogPosts.Some? ==> area == "hobbies"
  {
    if area == "fintech" then GetFintechContent(store)
    else if area == "media" then GetMediaContent(store)
    else if area == "hobbies" then GetHobbiesContent(store)
    else Ok(GetDefaultContent(store))
  }

  /** A topic shows the records its keywords select: the projects are the
      matching projects in their order; the experiences are the matching
      experiences, to which the media topic adds its pinned record. */
  lemma TopicFiltering(store: Store, area: string)
    requires area in Topics && Loaded(store)
    ensures var c := GetContentForArea(store, area).value;
      && c.projects == FilterByKeywords(ProjectList(store).value, TopicKeywords(area))
      && (area != "media" ==> c.experiences == FilterByKeywords(WorkExperience(store).value, TopicKeywords(area)))
      && (area == "media" ==> c.experiences == MediaExperiences(WorkExperience(store).value))
  {
    if area == "fintech" {
      assert GetContentForArea(store, area) == GetFintechContent(store);
    } else if area == "media" {
      assert GetContentForArea(store, area) == GetMediaContent(store);
    } else {
      assert GetContentForArea(store, area) == GetHobbiesContent(store);
    }
  }

  /** Each topic carries its own side panel: the fintech insights, the
      media assets, or the blog posts of the store; no other view carries
      insights or media assets. */
  lemma TopicPanels(store: Store, area: string)
    requires area in Topics && Loaded(store)
    ensures GetContentForArea(store, area).value.insights == (if area == "fintech" then FintechInsights else [])
    ensures GetContentForArea(store, area).value.mediaAssets == (if area == "media" then MediaAssets else [])
    ensures area == "hobbies" ==> GetContentForArea(store, area).value.blogPosts == store.blogPosts
  {
    if area == "fintech" {
      assert GetContentForArea(store, area) == GetFintechContent(store);
    } else if area == "media" {
      assert GetContentForArea(store, area) == GetMediaContent(store);
    } else {
      assert GetContentForArea(store, area) == GetHobbiesContent(store);
    }
  }

  /** The media view pins a record yet is never longer than the
      experience list it is drawn from. */
  lemma MediaViewBounded(store: Store)
    requires GetContentForArea(store, "media").Ok?
    ensures |GetContentForArea(store, "media").value.experiences| <= |WorkExperience(store).value|
  {
    MediaPinnedOnce(WorkExperience(store).value);
  }

  /** Every topic shows only records of the store: its experiences are
      records of the experience list and its projects records of the
      project list. */
  lemma TopicShowsOnlyStoredRecords(store: Store, area: string)
    requires GetContentForArea(store, area).Ok?
    ensures forall e :: e in GetContentForArea(store, area).value.experiences ==> e in ListOrEmpty(WorkExperience(store))
    ensures forall p :: p in GetContentForArea(store, area).value.projects ==> p in ListOrEmpty(ProjectList(store))
  {
    if area == "media" {
      var exps := WorkExperience(store).value;
      var pinned := FindByCompany(exps, PinnedMediaCompany);
      if pinned.Some? {
        var i :| 0 <= i < |exps| && exps[i] == pinned.value;
      }
    }
  }

  /** A record whose description mentions a blockchain wallet integration
      is a fintech record. */
  lemma BlockchainWalletIsFintech(store: Store, record: Item)
    requires Loaded(store)
    requires record == BlankItem.(description := Some("blockchain wallet integration"))
    requires record in WorkExperience(store).value
    ensures record in GetContentForArea(store, "fintech").value.experiences
  {
    assert SearchParts(record)[0] == "blockchain wallet integration";
    assert "blockchain" <= "blockchain wallet integration";
    assert Contains(Lower("blockchain wallet integration"), Lower("blockchain")) by {
      assert Lower("blockchain wallet integration") == "blockchain wallet integration";
      assert Lower("blockchain") == "blockchain";
    }
    assert FintechKeywords[2] == "blockchain";
    FieldMatchKept(WorkExperience(store).value, FintechKeywords, record, 0, "blockchain");
  }

  /** The search text of a record that has only a description: the
      description, then the separators before the empty position and
      company strings. */
  lemma DescriptionOnlySearchText(record: Item, description: string)
    requires record == BlankItem.(description := Some(description))
    ensures SearchText(record) == Lower(description + "  ")
  {
    assert SearchParts(record) == [description, "", ""];
    assert Join(["", ""], " ") == " " by {
      assert ["", ""][1..] == [""];
    }
    assert [description, "", ""][1..] == ["", ""];
    assert description + " " + " " == description + "  ";
  }

  /** The text "blockchain wallet integration" has no `m`, `v`, `p` or
      `f`, and no `c` in it is followed by an `o`. */
  lemma WalletTextLetters(text: string)
    requires text == "blockchain wallet integration  "
    ensures forall i :: 0 <= i < |text| ==> text[i] !in "mvpf"
    ensures forall i :: 0 <= i < |text| - 1 ==> !(text[i] == 'c' && text[i + 1] == 'o')
  {
  }

  /** "content" does not occur where "co" does not. */
  lemma NoContentWithoutCo(text: string)
    requires forall i :: 0 <= i < |text| - 1 ==> !(text[i] == 'c' && text[i + 1] == 'o')
    ensures !Contains(text, Lower("content"))
  {
    AbsentPairNotContained(text, Lower("content"), 0);
  }

  /** No media keyword occurs in a text without `m`, `v`, `p`, `f` and
      "content": every other keyword holds one of those letters. */
  lemma NoMediaKeywordIn(text: string)
    requires 'm' !in text && 'v' !in text && 'p' !in text && 'f' !in text
    requires !Contains(text, Lower("content"))
    ensures forall k :: k in MediaKeywords ==> !Contains(text, Lower(k))
  {
    AbsentCharNotContained(text, Lower("media"), 0);
    AbsentCharNotContained(text, Lower("creative"), 6);
    AbsentCharNotContained(text, Lower("interview"), 5);
    AbsentCharNotContained(text, Lower("video"), 0);
    AbsentCharNotContained(text, Lower("photo"), 0);
    AbsentCharNotContained(text, Lower("marketing"), 0);
    AbsentCharNotContained(text, Lower("copywriting"), 2);
    AbsentCharNotContained(text, Lower("film"), 0);
    AbsentCharNotContained(text, Lower("podcast"), 0);
    AbsentCharNotContained(text, Lower("generative"), 8);
    forall k | k in MediaKeywords
      ensures !Contains(text, Lower(k))
    {
      assert k == "media" || k == "creative" || k == "content" || k == "interview" || k == "video" || k == "photo"
        || k == "marketing" || k == "copywriting" || k == "film" || k == "podcast" || k == "generative";
    }
  }

  /** So no media keyword occurs in a text that lacks those letters. */
  lemma NoMediaKeywordWhereLettersLack(text: string)
    requires forall i :: 0 <= i < |text| ==> text[i] !in "mvpf"
    requires forall i :: 0 <= i < |text| - 1 ==> !(text[i] == 'c' && text[i + 1] == 'o')
    ensures forall k :: k in MediaKeywords ==> !Contains(text, Lower(k))
  {
    assert 'm' !in text && 'v' !in text && 'p' !in text && 'f' !in text;
    NoContentWithoutCo(text);
    NoMediaKeywordIn(text);
  }

  /** The record described only as "blockchain wallet integration"
      matches no media keyword. */
  lemma WalletRecordMatchesNoMediaKeyword(record: Item)
    requires record == BlankItem.(description := Some("blockchain wallet integration"))
    ensures !Matches(record, MediaKeywords)
  {
    var text := SearchText(record);
    DescriptionOnlySearchText(record, "blockchain wallet integration");
    assert text == "blockchain wallet integration  ";
    WalletTextLetters(text);
    NoMediaKeywordWhereLettersLack(text);
  }

  /** That record is not a media record: it matches no media keyword, and
      having no company it is not the pinned record either. */
  lemma BlockchainWalletIsNotMedia(store: Store, record: Item)
    requires Loaded(store)
    requires record == BlankItem.(description := Some("blockchain wallet integration"))
    ensures !Matches(record, MediaKeywords)
    ensures record !in GetContentForArea(store, "media").value.experiences
  {
    WalletRecordMatchesNoMediaKeyword(record);
    assert GetContentForArea(store, "media") == GetMediaContent(store);
  }

  /** "blockchain" holds the letters "ai". */
  lemma WalletTextHoldsAi(description: string)
    requires description == "blockchain wallet integration"
    ensures Contains(description, "ai")
  {
    assert description[7] == 'a' && description[8] == 'i';
    assert OccursAt(description, "ai", 7);
    ContainsFromOccurrence(description, "ai", 7);
  }

  /** A text holding "ai" holds the keyword 'AI' once both are lower-cased. */
  lemma AiMatchesKeywordAI(text: string)
    requires Contains(text, "ai")
    ensures Contains(Lower(text), Lower("AI"))
  {
    LowerPreservesContains(text, "ai");
    assert Lower("ai") == Lower("AI");
  }

  /** The same record is also a hobbies record: "blockchain" holds the
      letters "ai", and 'AI' is a hobbies keyword. */
  lemma BlockchainWalletIsHobby(store: Store, record: Item)
    requires Loaded(store)
    requires record == BlankItem.(description := Some("blockchain wallet integration"))
    requires record in WorkExperience(store).value
    ensures Matches(record, HobbiesKeywords)
    ensures record in GetContentForArea(store, "hobbies").value.experiences
  {
    assert SearchParts(record)[0] == "blockchain wallet integration";
    WalletTextHoldsAi(SearchParts(record)[0]);
    AiMatchesKeywordAI(SearchParts(record)[0]);
    assert HobbiesKeywords[7] == "AI";
    FieldMatchKept(WorkExperience(store).value, HobbiesKeywords, record, 0, "AI");
    assert GetContentForArea(store, "hobbies") == GetHobbiesContent(store);
  }

  // ---------------------------------------------------------------------
  // getSkillsByArea
  // ---------------------------------------------------------------------

  /** The skills of the experiences, in the order `getSkillsByArea` adds
      them to its set. */
  function ExperienceSkills(exps: seq<Item>): seq<string>
  {
    if exps == [] then [] else ExperienceSkills(exps[..|exps| - 1]) + ListOrEmpty(exps[|exps| - 1].skills)
  }

  /** The technologies and then the tags of each project, in the order
      `getSkillsByArea` adds them to its set. */
  function ProjectSkills(projects: seq<Item>): seq<string>
  {
    if projects == [] then []
    else
      var last := projects[|projects| - 1];
      ProjectSkills(projects[..|projects| - 1]) + ListOrEmpty(last.technologies) + ListOrEmpty(last.tags)
  }

  lemma ExperienceSkillsSnoc(exps: seq<Item>, i: int)
    requires 0 <= i < |exps|
    ensures ExperienceSkills(exps[..i + 1]) == ExperienceSkills(exps[..i]) + ListOrEmpty(exps[i].skills)
  {
    assert exps[..i + 1][..i] == exps[..i];
  }

  lemma ProjectSkillsSnoc(projects: seq<Item>, i: int)
    requires 0 <= i < |projects|
    ensures ProjectSkills(projects[..i + 1])
         == ProjectSkills(projects[..i]) + ListOrEmpty(projects[i].technologies) + ListOrEmpty(projects[i].tags)
  {
    assert projects[..i + 1][..i] == projects[..i];
  }

  lemma ProjectStreamSnoc(done: seq<string>, projects: seq<Item>, i: int)
    requires 0 <= i < |projects|
    ensures done + ProjectSkills(projects[..i]) + ListOrEmpty(projects[i].technologies) + ListOrEmpty(projects[i].tags)
         == done + ProjectSkills(projects[..i + 1])
  {
    ProjectSkillsSnoc(projects, i);
  }

  /** Everything `getSkillsByArea` adds, in order. */
  function SkillStream(c: Content): seq<string>
  {
    ExperienceSkills(c.experiences) + ProjectSkills(c.projects)
  }

  /** `values.forEach(v => allSkills.add(v))` on the insertion-ordered set
      built so far from `stream`. */
  method AddAll(allSkills: seq<string>, ghost stream: seq<string>, values: seq<string>) returns (r: seq<string>)
    requires allSkills == Dedup(stream)
    ensures r == Dedup(stream + values)
  {
    r := allSkills;
    var j := 0;
    assert stream + values[..0] == stream;
    while j < |values|
      invariant 0 <= j <= |values|
      invariant r == Dedup(stream + values[..j])
    {
      DedupSnoc(stream + values[..j], values[j]);
      assert stream + values[..j + 1] == (stream + values[..j]) + [values[j]];
      r := AddIfAbsent(r, values[j]);
      j := j + 1;
    }
    assert values[..j] == values;
  }

  /** The first `forEach` of `getSkillsByArea`: each experience's skills
      added to an empty insertion-ordered set. */
  method CollectExperienceSkills(exps: seq<Item>) returns (allSkills: seq<string>)
    ensures allSkills == Dedup(ExperienceSkills(exps))
  {
    allSkills := [];
    var i := 0;
    while i < |exps|
      invariant 0 <= i <= |exps|
      invariant allSkills == Dedup(ExperienceSkills(exps[..i]))
    {
      allSkills := AddAll(allSkills, ExperienceSkills(exps[..i]), ListOrEmpty(exps[i].skills));
      ExperienceSkillsSnoc(exps, i);
      i := i + 1;
    }
    assert exps[..i] == exps;
  }

  /** The second `forEach` of `getSkillsByArea`: each project's
      technologies and then its tags, added to the set built so far. */
  method CollectProjectSkills(allSkills: seq<string>, ghost done: seq<string>, projects: seq<Item>) returns (r: seq<string>)
    requires allSkills == Dedup(done)
    ensures r == Dedup(done + ProjectSkills(projects))
  {
    r := allSkills;
    var i := 0;
    assert done + ProjectSkills(projects[..0]) == done;
    while i < |projects|
      invariant 0 <= i <= |projects|
      invariant r == Dedup(done + ProjectSkills(projects[..i]))
    {
      var technologies, tags := ListOrEmpty(projects[i].technologies), ListOrEmpty(projects[i].tags);
      ghost var before := done + ProjectSkills(projects[..i]);
      r := AddAll(r, before, technologies);
      r := AddAll(r, before + technologies, tags);
      ProjectStreamSnoc(done, projects, i);
      i := i + 1;
    }
    assert projects[..i] == projects;
  }

  /** `getSkillsByArea`: the area's skills, technologies and tags as an
      insertion-ordered set (so each once, in first-occurrence order; see
      `Seqs.DedupFirstOccurrences`). It throws where `getContentForArea`
      throws. */
  method GetSkillsByArea(store: Store, area: string) returns (r: Result<seq<string>>)
    ensures r.TypeError? <==> GetContentForArea(store, area).TypeError?
    ensures r.Ok? ==> r.value == Dedup(SkillStream(GetContentForArea(store, area).value))
  {
    var content := GetContentForArea(store, area);
    if content.TypeError? {
      return TypeError;
    }
    var skills := CollectExperienceSkills(content.value.experiences);
    skills := CollectProjectSkills(skills, ExperienceSkills(content.value.experiences), content.value.projects);
    return Ok(skills);
  }

  // ---------------------------------------------------------------------
  // getAreaStatistics
  // ---------------------------------------------------------------------

  datatype AreaStats = AreaStats(experiences: nat, projects: nat, years: Option<string>, blogPosts: Option<nat>, focus: string)

  datatype Statistics = Statistics(fintech: AreaStats, media: AreaStats, hobbies: AreaStats)

  /** `getAreaStatistics`: how many records each topic shows. It needs
      loaded records and the blog posts, whose `length` it reads. */
  function GetAreaStatistics(store: Store): (r: Result<Statistics>)
    ensures r.Ok? <==> Loaded(store) && store.blogPosts.Some?
    ensures r.Ok? ==> r.value.hobbies.blogPosts == Some(|store.blogPosts.value|)
  {
    if !Loaded(store) || store.blogPosts.None? then TypeError
    else
      var fintech, media, hobbies := GetFintechContent(store).value, GetMediaContent(store).value, GetHobbiesContent(store).value;
      Ok(Statistics(
        AreaStats(|fintech.experiences|, |fintech.projects|, Some("8+"), None, "Long-term vision"),
        AreaStats(|media.experiences|, |media.projects|, Some("1+"), None, "Creative storytelling"),
        AreaStats(|hobbies.experiences|, |hobbies.projects|, None, Some(|store.blogPosts.value|), "Innovation & learning")))
  }

  /** The statistics count what the topic views show, so no topic counts
      more records than were loaded, the pinned media record included. */
  lemma StatisticsCountTopics(store: Store)
    requires GetAreaStatistics(store).Ok?
    ensures var stats := GetAreaStatistics(store).value;
      && stats.fintech.experiences == |GetContentForArea(store, "fintech").value.experiences|
      && stats.fintech.projects == |GetContentForArea(store, "fintech").value.projects|
      && stats.media.experiences == |GetContentForArea(store, "media").value.experiences|
      && stats.media.projects == |GetContentForArea(store, "media").value.projects|
      && stats.hobbies.experiences == |GetContentForArea(store, "hobbies").value.experiences|
      && stats.hobbies.projects == |GetContentForArea(store, "hobbies").value.projects|
      && stats.fintech.experiences <= |WorkExperience(store).value|
      && stats.media.experiences <= |WorkExperience(store).value|
      && stats.hobbies.experiences <= |WorkExperience(store).value|
      && stats.fintech.projects <= |ProjectList(store).value|
      && stats.media.projects <= |ProjectList(store).value|
      && stats.hobbies.projects <= |ProjectList(store).value|
  {
    assert GetContentForArea(store, "fintech") == GetFintechContent(store);
    assert GetContentForArea(store, "media") == GetMediaContent(store);
    assert GetContentForArea(store, "hobbies") == GetHobbiesContent(store);
    MediaPinnedOnce(WorkExperience(store).value);
  }
}
