/**
 * The project record (data/projects.ts, interface `Project`).
 *
 * Every `field?:` of the TypeScript interface is an `Option`; nested groups
 * (`technicalImplementation`, `designAndAnalysisMethodology`, `results`, ...)
 * are records whose own sub-fields are again independently optional.
 * The predicates at the end give JavaScript's truthiness of such values, which
 * is what the view's `x && ...` guards test.
 */
module ProjectSchema {
  import opened Wrappers

  datatype Dataset = Dataset(
    name: string,
    description: string,
    configurations: Option<seq<string>> := None)

  datatype Architecture = Architecture(
    name: string,
    description: string,
    details: Option<seq<string>> := None)

  /** Up to five independently optional lists of implementation notes. */
  datatype TechnicalImplementation = TechnicalImplementation(
    dataPreprocessing: Option<seq<string>> := None,
    dataAugmentation: Option<seq<string>> := None,
    trainingDetails: Option<seq<string>> := None,
    modelEvaluation: Option<seq<string>> := None,
    otherSections: Option<seq<string>> := None)

  /** Up to five independently optional lists of design notes. */
  datatype DesignMethodology = DesignMethodology(
    designApproach: Option<seq<string>> := None,
    componentSelection: Option<seq<string>> := None,
    stressAndFatigueAnalysis: Option<seq<string>> := None,
    deflectionAndSlope: Option<seq<string>> := None,
    simulationAndValidation: Option<seq<string>> := None)

  /** A `{ title, items }` group of `keyFeaturesAndFunctionalities` or `systemDesign`. */
  datatype TitledGroup = TitledGroup(title: string, items: seq<string>)

  datatype ResultVideo = ResultVideo(src: string, alt: string, title: Option<string> := None)

  datatype PerformanceAndResults = PerformanceAndResults(
    metrics: Option<seq<string>> := None,
    videos: Option<seq<ResultVideo>> := None)

  /** An `otherMetrics` entry; `label` is a Dafny keyword, hence `labelText`. */
  datatype Metric = Metric(labelText: string, value: string)

  datatype Results = Results(
    baselineAccuracy: Option<string> := None,
    validationAccuracy: Option<string> := None,
    testAccuracy: Option<string> := None,
    epochs: Option<int> := None,
    otherMetrics: Option<seq<Metric>> := None)

  /** An entry of `images` or `photos`. */
  datatype Picture = Picture(src: string, alt: string, caption: Option<string> := None)

  datatype CadModel = CadModel(
    src: string,
    alt: string,
    caption: Option<string> := None,
    model3d: Option<string> := None)

  /** The `type` tag of a video: exactly one of three values. */
  datatype VideoType = Simulation | Operation | Other

  datatype Video = Video(
    src: string,
    title: string,
    description: Option<string> := None,
    thumbnail: Option<string> := None,
    videoType: Option<VideoType> := None,
    skills: Option<seq<string>> := None,
    projectDescription: Option<string> := None)

  /** One portfolio project. The required fields come first. */
  datatype Project = Project(
    slug: string,
    title: string,
    shortDescription: string,
    fullDescription: string,
    technologies: seq<string>,
    image: string,
    githubUrl: Option<string> := None,
    course: Option<string> := None,
    institution: Option<string> := None,
    year: Option<string> := None,
    pageDescription: Option<string> := None,
    objective: Option<string> := None,
    dataset: Option<Dataset> := None,
    architectures: Option<seq<Architecture>> := None,
    technicalImplementation: Option<TechnicalImplementation> := None,
    designAndAnalysisMethodology: Option<DesignMethodology> := None,
    keyFeaturesAndFunctionalities: Option<seq<TitledGroup>> := None,
    systemDesign: Option<seq<TitledGroup>> := None,
    performanceAndResults: Option<PerformanceAndResults> := None,
    keyAchievements: Option<seq<string>> := None,
    results: Option<Results> := None,
    images: Option<seq<Picture>> := None,
    photos: Option<seq<Picture>> := None,
    cadModels: Option<seq<CadModel>> := None,
    videos: Option<seq<Video>> := None)

  /** JavaScript truthiness of an optional string: present and not `''`. */
  predicate Truthy(s: Option<string>) {
    s.Some? && s.value != ""
  }

  /** The guard `xs && xs.length > 0` on an optional list. */
  predicate NonEmpty<T>(xs: Option<seq<T>>) {
    xs.Some? && |xs.value| > 0
  }

  /** The list behind an optional field, `[]` when the field is absent. */
  function OrEmpty<T>(xs: Option<seq<T>>): seq<T> {
    if xs.Some? then xs.value else []
  }
}
