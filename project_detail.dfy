/**
 * components/ProjectDetail.tsx: which parts of a project's detail page are
 * rendered, in which order and under which headings, for one project record.
 *
 * The page is a dispatch on the slug: `autonomous-maze-robot` gets a bespoke
 * layout, every other project the default one. Around either layout sit the
 * overview, the "Core Concepts" chips, the "Key Achievements" and the link
 * back to the list. Inside a layout each section is guarded by the presence
 * of optional fields and by comparisons against a handful of special slugs.
 * The markup itself, animation and styling are not modelled.
 */
module ProjectDetail {
  import opened Wrappers
  import opened Text
  import opened ProjectSchema
  import opened Seqs

  // The slugs the page compares against.
  const MazeSlug := "autonomous-maze-robot"
  const BarcelonaSlug := "barcelona-logo-projection"
  const AfsdSlug := "additive-friction-stir-deposition"
  const Mie320Slug := "mie320-tensile-test"
  const Mie346Slug := "mie346-design-assignments"
  const GearboxSlug := "two-stage-gearbox-shaft-design"
  const WhacSlug := "whac-a-mole-embedded-game"
  const CncSlug := "home-cnc-milling-machine"
  const Meam5100Slug := "meam5100-autonomous-robot"

  /** Everything the detail page can render, one constructor per section. */
  datatype SectionKind =
    | Overview                        // title, course line, description, code link
    | CoreConcepts
    // bespoke layout of the maze robot
    | MazeObjectives
    | RobotDesign
    | EngineeringStrategy
    | SystemArchitecture
    | SimulationDemonstration
    | FinalResults
    // default layout
    | Introduction
    | Objectives
    | KeyFeatures
    | SystemDesign
    | PerformanceSection
    | DatasetSection
    | ModelArchitectures
    | EngineeringMethod
    | TensileTestImages
    | CircuitImages
    | DesignProcess
    | ImplementationSection
    | VideoDemonstration
    | ResultsSection
    | RobotPhotos
    | CadModelsSection
    | EngineeringDrawings
    | ProjectsGallery
    | VideosSection
    // after either layout
    | KeyAchievements
    | BackToProjects

  /** The sections only the bespoke layout has. */
  predicate IsBespokeKind(k: SectionKind) {
    k.MazeObjectives? || k.RobotDesign? || k.EngineeringStrategy? || k.SystemArchitecture?
    || k.SimulationDemonstration? || k.FinalResults?
  }

  /** The sections only the default layout has. */
  predicate IsDefaultKind(k: SectionKind) {
    !IsBespokeKind(k) && !(k.Overview? || k.CoreConcepts? || k.KeyAchievements? || k.BackToProjects?)
  }

  /** `videos.find(v => v.type === t)`: the first video carrying the tag `t`. */
  function FirstVideoOfType(videos: seq<Video>, t: VideoType): (r: Option<Video>)
    ensures r.None? <==> forall v :: v in videos ==> v.videoType != Some(t)
    ensures r.Some? ==> r.value.videoType == Some(t)
    ensures r.Some? ==> exists i :: 0 <= i < |videos| && videos[i] == r.value
                          && forall j :: 0 <= j < i ==> videos[j].videoType != Some(t)
  {
    if videos == [] then None
    else if videos[0].videoType == Some(t) then Some(videos[0])
    else
      var r := FirstVideoOfType(videos[1..], t);
      assert forall v :: v in videos ==> v == videos[0] || v in videos[1..];
      if r.Some? then
        var i :| 0 <= i < |videos[1..]| && videos[1..][i] == r.value
                 && forall j :: 0 <= j < i ==> videos[1..][j].videoType != Some(t);
        assert videos[i + 1] == r.value;
        r
      else
        r
  }

  /** `project.videos && project.videos.find(v => v.type === t)`. */
  function VideoOfType(p: Project, t: VideoType): Option<Video> {
    if p.videos.Some? then FirstVideoOfType(p.videos.value, t) else None
  }

  /** The guard of the default layout's results section (line 1496). */
  predicate ResultsShown(p: Project) {
    p.slug != CncSlug && p.slug != WhacSlug && p.slug != BarcelonaSlug
    && (p.results.Some? || p.slug == AfsdSlug)
  }

  /** The guard of the "Video Demonstration" section (line 1436). */
  predicate VideoDemonstrationShown(p: Project) {
    (p.slug == GearboxSlug || p.slug == WhacSlug) && NonEmpty(p.videos)
  }

  /** The guard of the Barcelona "Projects" gallery (line 2177). */
  predicate ProjectsGalleryShown(p: Project) {
    NonEmpty(p.videos) && p.slug == BarcelonaSlug
  }

  /** The guard of the generic "Videos" section (line 2255). */
  predicate VideosShown(p: Project) {
    p.slug != GearboxSlug && p.slug != WhacSlug && p.slug != Mie320Slug && p.slug != BarcelonaSlug
    && NonEmpty(p.videos)
  }

  /** `project.images.length >= n`, with an absent list counting as empty. */
  predicate HasImages(p: Project, n: nat) {
    p.images.Some? && |p.images.value| >= n
  }

  /**
   * Whether section `k` renders on the page of `p`: the layout dispatch
   * (line 226) and then the section's own guard.
   */
  predicate Shown(p: Project, k: SectionKind) {
    var bespoke := p.slug == MazeSlug;
    match k
    case Overview => true
    case CoreConcepts => |p.technologies| > 0
    case MazeObjectives => bespoke && Truthy(p.objective)
    case RobotDesign => bespoke && (NonEmpty(p.photos) || NonEmpty(p.cadModels))
    case EngineeringStrategy => bespoke && p.technicalImplementation.Some?
    case SystemArchitecture => bespoke
    case SimulationDemonstration => bespoke && VideoOfType(p, Simulation).Some?
    case FinalResults => bespoke && p.results.Some?
    case Introduction => !bespoke && p.slug == BarcelonaSlug && Truthy(p.pageDescription)
    case Objectives => !bespoke && p.slug != BarcelonaSlug && Truthy(p.objective)
    case KeyFeatures => !bespoke && NonEmpty(p.keyFeaturesAndFunctionalities)
    case SystemDesign => !bespoke && NonEmpty(p.systemDesign)
    case PerformanceSection => !bespoke && p.performanceAndResults.Some?
    case DatasetSection => !bespoke && p.dataset.Some?
    case ModelArchitectures => !bespoke && p.architectures.Some?
    case EngineeringMethod => !bespoke && p.designAndAnalysisMethodology.Some? && p.slug != BarcelonaSlug
    case TensileTestImages => !bespoke && p.slug == Mie320Slug && HasImages(p, 2)
    case CircuitImages => !bespoke && p.slug == Mie346Slug && HasImages(p, 2)
    case DesignProcess =>
      !bespoke && p.slug == CncSlug && p.technicalImplementation.Some?
      && p.technicalImplementation.value.trainingDetails.Some?
    case ImplementationSection => !bespoke && p.technicalImplementation.Some? && p.slug != CncSlug
    case VideoDemonstration => !bespoke && VideoDemonstrationShown(p)
    case ResultsSection => !bespoke && ResultsShown(p)
    case RobotPhotos => !bespoke && NonEmpty(p.photos) && p.slug != Meam5100Slug
    case CadModelsSection => !bespoke && NonEmpty(p.cadModels) && p.slug != Meam5100Slug
    case EngineeringDrawings => !bespoke && p.slug == CncSlug && NonEmpty(p.images)
    case ProjectsGallery => !bespoke && ProjectsGalleryShown(p)
    case VideosSection => !bespoke && VideosShown(p)
    case KeyAchievements => NonEmpty(p.keyAchievements)
    case BackToProjects => true
  }

  /**
   * The order of the page: the frame, the bespoke sections (lines 229-599),
   * the default ones (lines 608-2305), the achievements and the back link.
   */
  function KindAt(i: int): (k: SectionKind)
    requires 0 <= i < 29
  {
    match i
    case 0 => Overview
    case 1 => CoreConcepts
    case 2 => MazeObjectives
    case 3 => RobotDesign
    case 4 => EngineeringStrategy
    case 5 => SystemArchitecture
    case 6 => SimulationDemonstration
    case 7 => FinalResults
    case 8 => Introduction
    case 9 => Objectives
    case 10 => KeyFeatures
    case 11 => SystemDesign
    case 12 => PerformanceSection
    case 13 => DatasetSection
    case 14 => ModelArchitectures
    case 15 => EngineeringMethod
    case 16 => TensileTestImages
    case 17 => CircuitImages
    case 18 => DesignProcess
    case 19 => ImplementationSection
    case 20 => VideoDemonstration
    case 21 => ResultsSection
    case 22 => RobotPhotos
    case 23 => CadModelsSection
    case 24 => EngineeringDrawings
    case 25 => ProjectsGallery
    case 26 => VideosSection
    case 27 => KeyAchievements
    case _ => BackToProjects
  }

  /** The position of a section in the page order. */
  function Rank(k: SectionKind): (i: nat)
    ensures i < 29 && KindAt(i) == k
  {
    match k
    case Overview => 0
    case CoreConcepts => 1
    case MazeObjectives => 2
    case RobotDesign => 3
    case EngineeringStrategy => 4
    case SystemArchitecture => 5
    case SimulationDemonstration => 6
    case FinalResults => 7
    case Introduction => 8
    case Objectives => 9
    case KeyFeatures => 10
    case SystemDesign => 11
    case PerformanceSection => 12
    case DatasetSection => 13
    case ModelArchitectures => 14
    case EngineeringMethod => 15
    case TensileTestImages => 16
    case CircuitImages => 17
    case DesignProcess => 18
    case ImplementationSection => 19
    case VideoDemonstration => 20
    case ResultsSection => 21
    case RobotPhotos => 22
    case CadModelsSection => 23
    case EngineeringDrawings => 24
    case ProjectsGallery => 25
    case VideosSection => 26
    case KeyAchievements => 27
    case BackToProjects => 28
  }

  /** Positions and sections correspond one to one. */
  lemma KindAtRank(i: int)
    requires 0 <= i < 29
    ensures Rank(KindAt(i)) == i
  {
  }

  /** `rank` strictly increases along `ks`: no section twice, and the page order kept. */
  predicate StrictlyRanked(ks: seq<SectionKind>) {
    forall i, j :: 0 <= i < j < |ks| ==> Rank(ks[i]) < Rank(ks[j])
  }

  /** The sections from position `i` of the page order on that render for `p`, in page order. */
  function SectionsFrom(p: Project, i: nat): (r: seq<SectionKind>)
    requires i <= 29
    ensures forall k :: k in r <==> i <= Rank(k) && Shown(p, k)
    ensures forall j :: 0 <= j < |r| ==> i <= Rank(r[j])
    ensures StrictlyRanked(r)
    decreases 29 - i
  {
    if i == 29 then []
    else
      var k := KindAt(i);
      KindAtRank(i);
      (if Shown(p, k) then [k] else []) + SectionsFrom(p, i + 1)
  }

  /** Every section of the page for project `p`, top to bottom. */
  function Sections(p: Project): (r: seq<SectionKind>)
    ensures forall k :: k in r <==> Shown(p, k)
    ensures StrictlyRanked(r)
  {
    SectionsFrom(p, 0)
  }

  /** No section is rendered twice. */
  lemma NoRepeatedSection(p: Project)
    ensures forall i, j :: 0 <= i < j < |Sections(p)| ==> Sections(p)[i] != Sections(p)[j]
  {
  }

  /**
   * The dispatch is exclusive: the maze robot's page has bespoke sections
   * only, every other page default sections only.
   */
  lemma LayoutExclusive(p: Project, k: SectionKind)
    requires k in Sections(p)
    ensures IsBespokeKind(k) ==> p.slug == MazeSlug
    ensures IsDefaultKind(k) ==> p.slug != MazeSlug
  {
  }

  /**
   * Both layouts share the frame: the overview opens the page, the back link
   * closes it, "Core Concepts" is there exactly when there is a technology,
   * and "Key Achievements", when non-empty, comes last before the back link.
   */
  lemma SharedFrame(p: Project)
    ensures Sections(p)[0] == Overview
    ensures Sections(p)[|Sections(p)| - 1] == BackToProjects
    ensures CoreConcepts in Sections(p) <==> |p.technologies| > 0
    ensures KeyAchievements in Sections(p) <==> NonEmpty(p.keyAchievements)
    ensures NonEmpty(p.keyAchievements) ==> Sections(p)[|Sections(p)| - 2] == KeyAchievements
  {
    FrameGuards(p);
    FrameEnds(Sections(p));
  }

  /** Helper: the guards of the frame, the same in both layouts. */
  lemma FrameGuards(p: Project)
    ensures Shown(p, Overview) && Shown(p, BackToProjects)
    ensures Shown(p, CoreConcepts) <==> |p.technologies| > 0
    ensures Shown(p, KeyAchievements) <==> NonEmpty(p.keyAchievements)
  {
  }

  /** In a ranked list holding the overview and the back link, they open and close it. */
  lemma FrameEnds(r: seq<SectionKind>)
    requires StrictlyRanked(r)
    requires Overview in r && BackToProjects in r
    ensures r[0] == Overview && r[|r| - 1] == BackToProjects
    ensures KeyAchievements in r ==> r[|r| - 2] == KeyAchievements
  {
    var first :| 0 <= first < |r| && r[first] == Overview;
    var last :| 0 <= last < |r| && r[last] == BackToProjects;
    assert Rank(r[0]) <= Rank(r[first]) == 0;
    assert KindAt(Rank(r[0])) == r[0];
    assert Rank(r[|r| - 1]) >= Rank(r[last]) == 28;
    assert KindAt(Rank(r[|r| - 1])) == r[|r| - 1];
    if KeyAchievements in r {
      var ka :| 0 <= ka < |r| && r[ka] == KeyAchievements;
      assert ka <= |r| - 2;
      assert 27 == Rank(r[ka]) <= Rank(r[|r| - 2]) < Rank(r[|r| - 1]) == 28;
      assert KindAt(Rank(r[|r| - 2])) == r[|r| - 2];
    }
  }

  /**
   * The results rule of the default layout: the results section renders
   * exactly for the projects other than the CNC machine, the Whac-A-Mole
   * game and the Barcelona projection that have results or are the AFSD
   * project.
   */
  lemma ResultsRule(p: Project)
    requires p.slug != MazeSlug
    ensures ResultsSection in Sections(p) <==> ResultsShown(p)
  {
    ResultsGuard(p);
  }

  /** Helper: the guard of the results section, outside the bespoke layout. */
  lemma ResultsGuard(p: Project)
    requires p.slug != MazeSlug
    ensures Shown(p, ResultsSection) <==> ResultsShown(p)
  {
  }

  /** At most one of the three video sections renders for any project. */
  lemma AtMostOneVideoSection(p: Project)
    ensures !(VideoDemonstration in Sections(p) && ProjectsGallery in Sections(p))
    ensures !(VideoDemonstration in Sections(p) && VideosSection in Sections(p))
    ensures !(ProjectsGallery in Sections(p) && VideosSection in Sections(p))
  {
    var r := Sections(p);
    assert VideoDemonstration in r <==> Shown(p, VideoDemonstration);
    assert ProjectsGallery in r <==> Shown(p, ProjectsGallery);
    assert VideosSection in r <==> Shown(p, VideosSection);
    VideoGuardsExclusive(p);
  }

  /** Helper: the guards of the three video sections exclude each other. */
  lemma VideoGuardsExclusive(p: Project)
    ensures !(Shown(p, VideoDemonstration) && Shown(p, ProjectsGallery))
    ensures !(Shown(p, VideoDemonstration) && Shown(p, VideosSection))
    ensures !(Shown(p, ProjectsGallery) && Shown(p, VideosSection))
  {
    assert GearboxSlug != BarcelonaSlug && WhacSlug != BarcelonaSlug;
  }

  /** The `<h2>` heading a section carries on the page of `p`, if any. */
  function Heading(p: Project, k: SectionKind): (h: Option<string>)
    ensures h.Some? ==> h.value != ""
  {
    match k
    case Overview => None
    case CoreConcepts => Some("Core Concepts")
    case MazeObjectives => Some("Objectives")
    case RobotDesign => Some("Robot Design")
    case EngineeringStrategy => Some("Engineering Approach")
    case SystemArchitecture => Some("System Architecture")
    case SimulationDemonstration => Some("Simulation Demonstration")
    case FinalResults => Some("Final Results & Performance")
    case Introduction => None
    case Objectives => Some("Objectives")
    case KeyFeatures => Some("Key Features & Functionalities")
    case SystemDesign => Some("System Design")
    case PerformanceSection => Some("Performance & Results")
    case DatasetSection => Some("Dataset")
    case ModelArchitectures => Some("Model Architectures")
    case EngineeringMethod =>
      Some(if p.slug == Mie320Slug then "Engineering Process" else "Engineering Approach")
    case TensileTestImages => None
    case CircuitImages => None
    case DesignProcess => Some("Design Process")
    case ImplementationSection =>
      Some(if p.slug == AfsdSlug then "Engineering Analysis" else "Technical Implementation")
    case VideoDemonstration => Some("Video Demonstration")
    case ResultsSection =>
      if p.slug == Mie320Slug then Some("Testing Results")
      else if p.slug == AfsdSlug || p.slug == Mie346Slug then None
      else Some("Results")
    case RobotPhotos => Some("Robot Photos")
    case CadModelsSection => Some("CAD Models")
    case EngineeringDrawings => Some("Engineering Drawings")
    case ProjectsGallery => Some("Projects")
    case VideosSection => Some("Videos")
    case KeyAchievements => Some("Key Achievements")
    case BackToProjects => None
  }

  /**
   * The results section is headed "Testing Results" for the tensile test,
   * has no heading of its own for the AFSD and MIE346 projects, and is
   * headed "Results" everywhere else.
   */
  lemma ResultsHeading(p: Project)
    ensures Heading(p, ResultsSection) == Some("Testing Results") <==> p.slug == Mie320Slug
    ensures Heading(p, ResultsSection).None? <==> p.slug == AfsdSlug || p.slug == Mie346Slug
  {
  }

  /**
   * The headings that depend on the project: the method section reads
   * "Engineering Process" only for the tensile test, the implementation
   * section "Engineering Analysis" only for the AFSD project; every other
   * section keeps its heading whatever the project.
   */
  lemma ProjectDependentHeadings(p: Project, q: Project, k: SectionKind)
    ensures Heading(p, EngineeringMethod)
      == Some(if p.slug == Mie320Slug then "Engineering Process" else "Engineering Approach")
    ensures Heading(p, ImplementationSection)
      == Some(if p.slug == AfsdSlug then "Engineering Analysis" else "Technical Implementation")
    ensures !k.EngineeringMethod? && !k.ImplementationSection? && !k.ResultsSection? ==> Heading(p, k) == Heading(q, k)
  {
  }

  // ----- Core Concepts (lines 196-220) -----

  /** The concept chips: all technologies when unfolded or at most five, else the first five. */
  function ConceptChips(technologies: seq<string>, showAll: bool): (r: seq<string>)
    ensures |r| <= |technologies| && r == technologies[..|r|]
    ensures |r| == if showAll || |technologies| <= 5 then |technologies| else 5
  {
    if showAll || |technologies| <= 5 then technologies else technologies[..5]
  }

  /** The toggle under the chips: absent for five or fewer, else "Show Less" or "Show {n-5} More". */
  function ConceptToggleLabel(technologies: seq<string>, showAll: bool): (r: Option<string>)
    ensures r.Some? <==> |technologies| > 5
    ensures r.Some? && showAll ==> r.value == "Show Less"
  {
    if |technologies| <= 5 then None
    else if showAll then Some("Show Less")
    else Some("Show " + NatToString(|technologies| - 5) + " More")
  }

  /** The number the folded toggle announces is exactly the number of chips it would add. */
  lemma {:induction false} ToggleCountsTheRest(technologies: seq<string>, k: nat)
    requires ConceptToggleLabel(technologies, false) == Some("Show " + NatToString(k) + " More")
    ensures |ConceptChips(technologies, false)| + k == |technologies|
    ensures |ConceptChips(technologies, true)| - |ConceptChips(technologies, false)| == k
  {
    var n := |technologies| - 5;
    var a := "Show " + NatToString(n) + " More";
    var b := "Show " + NatToString(k) + " More";
    assert a == b;
    assert |NatToString(n)| == |NatToString(k)|;
    assert NatToString(n) == a[5..|a| - 5];
    assert NatToString(k) == b[5..|b| - 5];
    NatToStringInjective(n, k);
  }

  // ----- The bespoke layout's keyword buckets (lines 371-457) -----

  const ObstacleKeywords: seq<string> := ["obstacle", "angle", "sensor threshold", "simmer"]
  const LocalizationKeywords: seq<string> := ["localization", "probability", "path planning", "heading"]
  const BlockKeywords: seq<string> := ["block", "gripper", "servo", "scanning"]

  /** `item.toLowerCase().includes(k1) || ... || item.toLowerCase().includes(k4)`. */
  predicate MatchesAny(item: string, keywords: seq<string>) {
    exists i :: 0 <= i < |keywords| && Includes(ToLower(item), keywords[i])
  }

  /** `items.filter(item => MatchesAny(item, keywords))`. */
  function Bucket(items: seq<string>, keywords: seq<string>): (r: seq<string>)
    ensures |r| <= |items|
    ensures forall x :: x in r <==> x in items && MatchesAny(x, keywords)
  {
    Filter(items, item => MatchesAny(item, keywords))
  }

  /** A titled list of items, as rendered in a card of a section. */
  datatype Block = Block(title: string, items: seq<string>)

  /** The titles of a list of blocks. */
  function Titles(bs: seq<Block>): (r: seq<string>)
    ensures |r| == |bs|
    ensures forall i :: 0 <= i < |bs| ==> r[i] == bs[i].title
  {
    if bs == [] then [] else [bs[0].title] + Titles(bs[1..])
  }

  /**
   * The cards of the bespoke "Engineering Approach" section: the three
   * keyword buckets of `trainingDetails` (each rendered, even when empty,
   * whenever the list is present), then the sensor card of `dataPreprocessing`.
   */
  function StrategyBlocks(ti: TechnicalImplementation): (r: seq<Block>)
    ensures |r| == (if ti.trainingDetails.Some? then 3 else 0) + (if ti.dataPreprocessing.Some? then 1 else 0)
    ensures forall b :: b in r && b.title != "Sensor Integration & Data Processing" ==>
      ti.trainingDetails.Some? && forall x :: x in b.items ==> x in ti.trainingDetails.value
  {
    (if ti.trainingDetails.Some? then
       var td := ti.trainingDetails.value;
       [Block("Obstacle Avoidance Strategy", Bucket(td, ObstacleKeywords)),
        Block("Localization & Navigation Strategy", Bucket(td, LocalizationKeywords)),
        Block("Block Delivery Strategy", Bucket(td, BlockKeywords))]
     else [])
    + (if ti.dataPreprocessing.Some? then
         [Block("Sensor Integration & Data Processing", ti.dataPreprocessing.value)]
       else [])
  }

  /** The titles of the strategy cards, top to bottom. */
  lemma StrategyTitles(ti: TechnicalImplementation)
    ensures Titles(StrategyBlocks(ti))
      == (if ti.trainingDetails.Some? then
            ["Obstacle Avoidance Strategy", "Localization & Navigation Strategy", "Block Delivery Strategy"]
          else [])
         + (if ti.dataPreprocessing.Some? then ["Sensor Integration & Data Processing"] else [])
  {
  }

  // ----- Sub-sections with slug-dependent labels (lines 1068-1431) -----

  /** `[Block(title, items)]` when the optional list is present. */
  function BlockIf(c: bool, title: string, items: Option<seq<string>>): seq<Block> {
    if c && items.Some? then [Block(title, items.value)] else []
  }

  /**
   * The cards of the design-methodology section, one per present sub-field in
   * the fixed field order; the Whac-A-Mole page leaves out component selection.
   */
  function MethodBlocks(slug: string, dam: DesignMethodology): (r: seq<Block>)
    ensures |r| <= 5
  {
    var mie320 := slug == Mie320Slug;
    BlockIf(true, if mie320 then "Design & Simulation Setup" else "System Architecture & Hardware Design",
            dam.designApproach)
    + BlockIf(slug != WhacSlug, if mie320 then "Design Iteration & FEA Analysis" else "Component Selection",
              dam.componentSelection)
    + BlockIf(true, if mie320 then "Experimental Testing & Validation"
                    else if slug == WhacSlug then "Embedded Software Design"
                    else "Filtering & Protection Enhancements",
              dam.stressAndFatigueAnalysis)
    + BlockIf(true, "Deflection and Slope", dam.deflectionAndSlope)
    + BlockIf(true, if mie320 then "Refinement & Final Design" else "Testing & Optimization",
              dam.simulationAndValidation)
  }

  /** The cards of the technical-implementation section; the AFSD page relabels all five. */
  function ImplementationBlocks(slug: string, ti: TechnicalImplementation): (r: seq<Block>)
    ensures |r| <= 5
  {
    var afsd := slug == AfsdSlug;
    BlockIf(true, if afsd then "Process Overview & Methodology" else "Data Preprocessing", ti.dataPreprocessing)
    + BlockIf(true, if afsd then "Material Selection & Process Parameters" else "Data Augmentation",
              ti.dataAugmentation)
    + BlockIf(true, if afsd then "Experimental Design & Comparative Analysis" else "Training Details",
              ti.trainingDetails)
    + BlockIf(true, if afsd then "Microstructural & Mechanical Evaluation" else "Model Evaluation",
              ti.modelEvaluation)
    + BlockIf(true, if afsd then "Post-Processing & Validation" else "Additional Details", ti.otherSections)
  }

  /**
   * Every present sub-field gets exactly one card holding that field's list
   * unchanged, under its label for this project, and the cards follow the
   * order of the fields: a card's position is the number of cards rendered
   * for the fields before it. The tensile test relabels all but "Deflection
   * and Slope", the Whac-A-Mole page relabels the analysis card and leaves
   * out component selection.
   */
  lemma MethodComplete(slug: string, dam: DesignMethodology)
    ensures |MethodBlocks(slug, dam)| == Count(dam.designApproach)
      + (if slug == WhacSlug then 0 else Count(dam.componentSelection))
      + Count(dam.stressAndFatigueAnalysis) + Count(dam.deflectionAndSlope) + Count(dam.simulationAndValidation)
    ensures dam.designApproach.Some? ==>
      MethodBlocks(slug, dam)[0]
      == Block(if slug == Mie320Slug then "Design & Simulation Setup" else "System Architecture & Hardware Design",
               dam.designApproach.value)
    ensures dam.componentSelection.Some? && slug != WhacSlug ==>
      MethodBlocks(slug, dam)[Count(dam.designApproach)]
      == Block(if slug == Mie320Slug then "Design Iteration & FEA Analysis" else "Component Selection",
               dam.componentSelection.value)
    ensures slug == WhacSlug ==> forall b :: b in MethodBlocks(slug, dam) ==> b.title != "Component Selection"
    ensures var n := Count(dam.designApproach) + (if slug == WhacSlug then 0 else Count(dam.componentSelection));
      dam.stressAndFatigueAnalysis.Some? ==>
      MethodBlocks(slug, dam)[n]
      == Block(if slug == Mie320Slug then "Experimental Testing & Validation"
               else if slug == WhacSlug then "Embedded Software Design"
               else "Filtering & Protection Enhancements",
               dam.stressAndFatigueAnalysis.value)
    ensures var n := Count(dam.designApproach) + (if slug == WhacSlug then 0 else Count(dam.componentSelection))
                     + Count(dam.stressAndFatigueAnalysis);
      dam.deflectionAndSlope.Some? ==>
      MethodBlocks(slug, dam)[n] == Block("Deflection and Slope", dam.deflectionAndSlope.value)
    ensures var n := Count(dam.designApproach) + (if slug == WhacSlug then 0 else Count(dam.componentSelection))
                     + Count(dam.stressAndFatigueAnalysis) + Count(dam.deflectionAndSlope);
      dam.simulationAndValidation.Some? ==>
      MethodBlocks(slug, dam)[n]
      == Block(if slug == Mie320Slug then "Refinement & Final Design" else "Testing & Optimization",
               dam.simulationAndValidation.value)
  {
    var mie320 := slug == Mie320Slug;
    FiveCards(if mie320 then "Design & Simulation Setup" else "System Architecture & Hardware Design",
              if mie320 then "Design Iteration & FEA Analysis" else "Component Selection",
              if mie320 then "Experimental Testing & Validation"
              else if slug == WhacSlug then "Embedded Software Design"
              else "Filtering & Protection Enhancements",
              "Deflection and Slope",
              if mie320 then "Refinement & Final Design" else "Testing & Optimization",
              slug != WhacSlug, dam.designApproach, dam.componentSelection, dam.stressAndFatigueAnalysis,
              dam.deflectionAndSlope, dam.simulationAndValidation);
    if slug == WhacSlug {
      WhacMethodTitles(dam);
    }
  }

  /**
   * Five optional cards in a row, the second of them switchable: how many
   * there are and where each present one lands.
   */
  lemma FiveCards(ta: string, tb: string, tc: string, td: string, te: string, withB: bool,
                  a: Option<seq<string>>, b: Option<seq<string>>, c: Option<seq<string>>,
                  d: Option<seq<string>>, e: Option<seq<string>>)
    ensures var r := BlockIf(true, ta, a) + BlockIf(withB, tb, b) + BlockIf(true, tc, c)
                     + BlockIf(true, td, d) + BlockIf(true, te, e);
      var nb := if withB then Count(b) else 0;
      && |r| == Count(a) + nb + Count(c) + Count(d) + Count(e)
      && (a.Some? ==> r[0] == Block(ta, a.value))
      && (b.Some? && withB ==> r[Count(a)] == Block(tb, b.value))
      && (c.Some? ==> r[Count(a) + nb] == Block(tc, c.value))
      && (d.Some? ==> r[Count(a) + nb + Count(c)] == Block(td, d.value))
      && (e.Some? ==> r[Count(a) + nb + Count(c) + Count(d)] == Block(te, e.value))
  {
  }

  /** The Whac-A-Mole page has no "Component Selection" card. */
  lemma WhacMethodTitles(dam: DesignMethodology)
    ensures forall b :: b in MethodBlocks(WhacSlug, dam) ==> b.title != "Component Selection"
  {
    var a := BlockIf(true, "System Architecture & Hardware Design", dam.designApproach);
    var c := BlockIf(true, "Embedded Software Design", dam.stressAndFatigueAnalysis);
    var d := BlockIf(true, "Deflection and Slope", dam.deflectionAndSlope);
    var e := BlockIf(true, "Testing & Optimization", dam.simulationAndValidation);
    assert MethodBlocks(WhacSlug, dam) == a + [] + c + d + e;
    assert forall x :: x in a ==> x.title == "System Architecture & Hardware Design";
    assert forall x :: x in c ==> x.title == "Embedded Software Design";
    assert forall x :: x in e ==> x.title == "Testing & Optimization";
  }

  /** 1 for a present list, 0 for an absent one. */
  function Count(items: Option<seq<string>>): nat {
    if items.Some? then 1 else 0
  }

  /**
   * Every present sub-field gets exactly one card, whose items are that
   * field's list unchanged, whatever the slug, and the cards follow the order
   * of the fields; the AFSD page relabels all five cards.
   */
  lemma ImplementationComplete(slug: string, ti: TechnicalImplementation)
    ensures |ImplementationBlocks(slug, ti)| == Count(ti.dataPreprocessing) + Count(ti.dataAugmentation)
      + Count(ti.trainingDetails) + Count(ti.modelEvaluation) + Count(ti.otherSections)
    ensures ti.dataPreprocessing.Some? ==>
      ImplementationBlocks(slug, ti)[0]
      == Block(if slug == AfsdSlug then "Process Overview & Methodology" else "Data Preprocessing",
               ti.dataPreprocessing.value)
    ensures ti.dataAugmentation.Some? ==>
      ImplementationBlocks(slug, ti)[Count(ti.dataPreprocessing)]
      == Block(if slug == AfsdSlug then "Material Selection & Process Parameters" else "Data Augmentation",
               ti.dataAugmentation.value)
    ensures ti.trainingDetails.Some? ==>
      ImplementationBlocks(slug, ti)[Count(ti.dataPreprocessing) + Count(ti.dataAugmentation)]
      == Block(if slug == AfsdSlug then "Experimental Design & Comparative Analysis" else "Training Details",
               ti.trainingDetails.value)
    ensures var n := Count(ti.dataPreprocessing) + Count(ti.dataAugmentation) + Count(ti.trainingDetails);
      ti.modelEvaluation.Some? ==>
      ImplementationBlocks(slug, ti)[n]
      == Block(if slug == AfsdSlug then "Microstructural & Mechanical Evaluation" else "Model Evaluation",
               ti.modelEvaluation.value)
    ensures var n := Count(ti.dataPreprocessing) + Count(ti.dataAugmentation) + Count(ti.trainingDetails)
                     + Count(ti.modelEvaluation);
      ti.otherSections.Some? ==>
      ImplementationBlocks(slug, ti)[n]
      == Block(if slug == AfsdSlug then "Post-Processing & Validation" else "Additional Details",
               ti.otherSections.value)
  {
    var afsd := slug == AfsdSlug;
    FiveCards(if afsd then "Process Overview & Methodology" else "Data Preprocessing",
              if afsd then "Material Selection & Process Parameters" else "Data Augmentation",
              if afsd then "Experimental Design & Comparative Analysis" else "Training Details",
              if afsd then "Microstructural & Mechanical Evaluation" else "Model Evaluation",
              if afsd then "Post-Processing & Validation" else "Additional Details",
              true, ti.dataPreprocessing, ti.dataAugmentation, ti.trainingDetails,
              ti.modelEvaluation, ti.otherSections);
  }

  // ----- Videos -----

  /** The `src` of each video, in order. */
  function Sources(vs: seq<Video>): (r: seq<string>)
    ensures |r| == |vs|
    ensures forall i :: 0 <= i < |vs| ==> r[i] == vs[i].src
  {
    Map(vs, (v: Video) => v.src)
  }

  /** The sections that hold a video player. */
  predicate IsVideoKind(k: SectionKind) {
    k.SimulationDemonstration? || k.FinalResults? || k.PerformanceSection? || k.VideoDemonstration?
    || k.ResultsSection? || k.ProjectsGallery? || k.VideosSection?
  }

  /** The sources of the videos of the record's `performanceAndResults`, none when it is absent. */
  function PerformanceSources(p: Project): (r: seq<string>)
    ensures p.performanceAndResults.None? ==> r == []
    ensures p.performanceAndResults.Some? ==>
      var vs := OrEmpty(p.performanceAndResults.value.videos);
      |r| == |vs| && forall i :: 0 <= i < |vs| ==> r[i] == vs[i].src
  {
    if p.performanceAndResults.Some? then
      Map(OrEmpty(p.performanceAndResults.value.videos), (v: ResultVideo) => v.src)
    else []
  }

  /**
   * The sources of the videos section `k` of the page of `p` shows, in order:
   * - "Simulation Demonstration" (lines 499-506): the first simulation video;
   * - "Final Results & Performance" (lines 563-566): the first operation video, if any;
   * - "Performance & Results" (lines 845-851): every video of `performanceAndResults`;
   * - "Video Demonstration" (lines 1436-1446): the first video;
   * - the tensile test's "Testing Results" (lines 1513-1519): the first video, if any;
   * - the Barcelona "Projects" grid (lines 2183-2195) and "Videos" (lines 2261-2267): every video.
   */
  function VideoSources(p: Project, k: SectionKind): (r: seq<string>)
    ensures r != [] ==> Shown(p, k) && IsVideoKind(k)
  {
    if !Shown(p, k) then []
    else
      match k
      case SimulationDemonstration => [VideoOfType(p, Simulation).value.src]
      case FinalResults =>
        if VideoOfType(p, Operation).Some? then [VideoOfType(p, Operation).value.src] else []
      case PerformanceSection => PerformanceSources(p)
      case VideoDemonstration => [p.videos.value[0].src]
      case ResultsSection =>
        if p.slug == Mie320Slug && NonEmpty(p.videos) then [p.videos.value[0].src] else []
      case ProjectsGallery => Sources(p.videos.value)
      case VideosSection => Sources(p.videos.value)
      case _ => []
  }

  /** Every source a section shows is that of one of the record's own videos. */
  lemma VideosFromRecord(p: Project, k: SectionKind, s: string)
    requires s in VideoSources(p, k)
    ensures s in Sources(OrEmpty(p.videos)) || s in PerformanceSources(p)
  {
    var r := VideoSources(p, k);
    if k.SimulationDemonstration? || k.FinalResults? {
      var t := if k.SimulationDemonstration? then Simulation else Operation;
      var v := VideoOfType(p, t).value;
      var i :| 0 <= i < |p.videos.value| && p.videos.value[i] == v
               && forall j :: 0 <= j < i ==> p.videos.value[j].videoType != Some(t);
      assert Sources(p.videos.value)[i] == s;
    } else if k.VideoDemonstration? || k.ResultsSection? {
      assert Sources(p.videos.value)[0] == s;
    }
  }

  /**
   * The maze robot's page shows videos only in "Simulation Demonstration"
   * (the first simulation video) and in "Final Results & Performance" (the
   * first operation video, and only when there are results).
   */
  lemma BespokeVideos(p: Project)
    requires p.slug == MazeSlug
    ensures forall k :: VideoSources(p, k) != [] ==> k == SimulationDemonstration || k == FinalResults
    ensures VideoSources(p, SimulationDemonstration)
      == if VideoOfType(p, Simulation).Some? then [VideoOfType(p, Simulation).value.src] else []
    ensures VideoSources(p, FinalResults)
      == if p.results.Some? && VideoOfType(p, Operation).Some? then [VideoOfType(p, Operation).value.src] else []
  {
  }

  /**
   * The gearbox and Whac-A-Mole pages show only their first video, under
   * "Video Demonstration"; the tensile test shows only its first video, inside
   * its results; neither the "Projects" grid nor "Videos" renders for them.
   */
  lemma FirstVideoOnly(p: Project)
    requires p.slug == GearboxSlug || p.slug == WhacSlug || p.slug == Mie320Slug
    requires NonEmpty(p.videos)
    ensures VideoSources(p, ProjectsGallery) == [] && VideoSources(p, VideosSection) == []
    ensures forall k :: VideoSources(p, k) != [] ==>
      k == (if p.slug == Mie320Slug then ResultsSection else VideoDemonstration) || k == PerformanceSection
    ensures p.slug != Mie320Slug ==> VideoSources(p, VideoDemonstration) == [p.videos.value[0].src]
    ensures p.slug == Mie320Slug ==>
      VideoSources(p, ResultsSection) == if p.results.Some? then [p.videos.value[0].src] else []
  {
    assert p.slug != BarcelonaSlug && p.slug != MazeSlug;
  }

  /**
   * On every other page each video is shown exactly once, in order: in the
   * Barcelona "Projects" grid or in "Videos".
   */
  lemma EveryVideoShown(p: Project)
    requires p.slug != MazeSlug && p.slug != GearboxSlug && p.slug != WhacSlug && p.slug != Mie320Slug
    requires NonEmpty(p.videos)
    ensures VideoSources(p, ProjectsGallery) + VideoSources(p, VideosSection) == Sources(p.videos.value)
    ensures VideoSources(p, VideoDemonstration) == []
    ensures forall k :: VideoSources(p, k) != [] ==>
      k == ProjectsGallery || k == VideosSection || k == PerformanceSection
  {
  }

  /**
   * "Performance & Results" (lines 839-851) renders on every page but the
   * maze robot's when the record has `performanceAndResults`, and then plays
   * each of its videos once, in order.
   */
  lemma PerformanceVideos(p: Project)
    ensures Shown(p, PerformanceSection) ==> VideoSources(p, PerformanceSection) == PerformanceSources(p)
    ensures var r := VideoSources(p, PerformanceSection);
      if p.slug != MazeSlug && p.performanceAndResults.Some? then
        var vs := OrEmpty(p.performanceAndResults.value.videos);
        |r| == |vs| && forall i :: 0 <= i < |vs| ==> r[i] == vs[i].src
      else r == []
  {
  }

  /** The label of a video's type badge (lines 2290-2296). */
  function VideoTypeBadge(v: Video): (r: Option<string>)
    ensures r.Some? <==> v.videoType.Some?
    ensures r == Some("Simulation") <==> v.videoType == Some(Simulation)
    ensures r == Some("Operation") <==> v.videoType == Some(Operation)
    ensures r == Some("Other") <==> v.videoType == Some(Other)
  {
    match v.videoType
    case None => None
    case Some(Simulation) => Some("Simulation")
    case Some(Operation) => Some("Operation")
    case Some(Other) => Some("Other")
  }
}
