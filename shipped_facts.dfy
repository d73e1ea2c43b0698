/**
 * Facts about the ten projects the site ships with (data/projects.ts) and
 * what the list and detail pages make of them. Each fact about a record is
 * read off the data alone; the general lemmas of the other modules then
 * carry it to the pages.
 */
module ShippedFacts {
  import opened Wrappers
  import opened Text
  import opened ProjectSchema
  import opened ProjectData
  import opened ProjectList
  import opened ProjectDetail

  /** The slugs of the shipped records, in the order of the data. */
  const ShippedSlugList: seq<string> := [
    "meam5100-autonomous-robot",
    "barcelona-logo-projection",
    "autonomous-maze-robot",
    "mie346-design-assignments",
    "additive-friction-stir-deposition",
    "two-stage-gearbox-shaft-design",
    "mie320-tensile-test",
    "dog-breed-classification-cnn",
    "whac-a-mole-embedded-game",
    "home-cnc-milling-machine"]

  /** Helper: record by record, the slugs of the data are those of the list above. */
  lemma DataSlugs()
    ensures |ProjectsData| == 10
    ensures forall i :: 0 <= i < 10 ==> ProjectsData[i].slug == ShippedSlugList[i]
  {
  }

  /** Helper: the listed slugs are pairwise distinct. */
  lemma SlugListDistinct()
    ensures forall i, j :: 0 <= i < j < |ShippedSlugList| ==> ShippedSlugList[i] != ShippedSlugList[j]
  {
  }

  /** Helper: the slugs of the data. */
  lemma ShippedSlugs()
    ensures Slugs(ProjectsData) == ShippedSlugList
  {
    DataSlugs();
  }

  /** The ten slugs are pairwise distinct, so a slug names one project. */
  lemma SlugsDistinct()
    ensures |ProjectsData| == 10
    ensures forall i, j :: 0 <= i < j < |ProjectsData| ==> ProjectsData[i].slug != ProjectsData[j].slug
  {
    DataSlugs();
    SlugListDistinct();
  }

  /** Helper: every slug of the display order is in the data. */
  lemma OrderInData()
    ensures forall s :: s in VisibleProjectOrder ==> s in ShippedSlugList
  {
  }

  /** All six ordered slugs resolve and none is hidden: the list shows those six, in order. */
  lemma ShippedVisibleList()
    ensures Slugs(VisibleProjects(ProjectsData)) == VisibleProjectOrder
  {
    ShippedSlugs();
    OrderInData();
    AllOrderedVisible(ProjectsData);
  }

  /** Six projects are listed, so four show folded and "See More Projects" is offered. */
  lemma ShippedFolding()
    ensures HasMoreProjects(VisibleProjects(ProjectsData))
    ensures SeeMoreShown(VisibleProjects(ProjectsData), false)
    ensures Slugs(DisplayedProjects(VisibleProjects(ProjectsData), false)) == VisibleProjectOrder[..4]
  {
    ShippedVisibleList();
    FoldedFirstFour(VisibleProjects(ProjectsData));
  }

  /** Helper: any list with the slugs of the display order folds to its first four. */
  lemma FoldedFirstFour(v: seq<Project>)
    requires Slugs(v) == VisibleProjectOrder
    ensures HasMoreProjects(v) && SeeMoreShown(v, false)
    ensures Slugs(DisplayedProjects(v, false)) == VisibleProjectOrder[..4]
  {
    assert |v| == 6;
    assert Slugs(v[..4]) == Slugs(v)[..4];
  }

  /** The record of the dog-breed classifier has 7 technologies, that of the MEAM 5100 robot 22. */
  lemma TechnologyCounts()
    ensures |DogBreedClassificationCnn.technologies| == 7
    ensures |Meam5100AutonomousRobot.technologies| == 22
  {
  }

  /** Helper: the badge for a given number of technologies. */
  lemma BadgeFor(t: seq<string>, n: nat, digits: string)
    requires |t| == n + 5 && n > 0 && NatToString(n) == digits
    ensures MoreBadge(t) == Some("+" + digits + " more")
  {
  }

  /** The cards of those two projects show five chips with "+2 more" and "+17 more". */
  lemma ShippedBadges()
    ensures |CardChips(DogBreedClassificationCnn.technologies)| == 5
    ensures MoreBadge(DogBreedClassificationCnn.technologies) == Some("+2 more")
    ensures |CardChips(Meam5100AutonomousRobot.technologies)| == 5
    ensures MoreBadge(Meam5100AutonomousRobot.technologies) == Some("+17 more")
  {
    TechnologyCounts();
    assert NatToString(2) == "2";
    assert NatToString(17) == "17";
    BadgeFor(DogBreedClassificationCnn.technologies, 2, "2");
    BadgeFor(Meam5100AutonomousRobot.technologies, 17, "17");
    assert "+" + "2" + " more" == "+2 more";
    assert "+" + "17" + " more" == "+17 more";
  }

  /** The CNC machine's implementation has only its training details. */
  lemma CncOnlyTrainingDetails()
    ensures HomeCncMillingMachine.technicalImplementation.Some?
    ensures var ti := HomeCncMillingMachine.technicalImplementation.value;
      ti.trainingDetails.Some? && ti.dataPreprocessing.None? && ti.dataAugmentation.None?
      && ti.modelEvaluation.None? && ti.otherSections.None?
  {
  }

  /** The maze robot has a simulation video followed by an operation video, and no other. */
  lemma MazeVideos()
    ensures AutonomousMazeRobot.videos.Some?
    ensures var vs := AutonomousMazeRobot.videos.value;
      |vs| == 2 && vs[0].videoType == Some(Simulation) && vs[1].videoType == Some(Operation)
  {
  }
}
/**
 * Two items of the maze robot's training details, and the characters of
 * the keywords they contain, read off one small group at a time.
 */
module ShippedItems {
  const MatlabItem := "MATLAB control algorithms: Navigation, localization, path planning, obstacle avoidance"
  const WallItem := "Obstacle avoidance: Wall distance thresholds"

  /** Helper: "obstacle" at position 68 of the MATLAB item. */
  lemma MatlabObstacle()
    ensures |MatlabItem| == 86
    ensures MatlabItem[68] == 'o' && MatlabItem[69] == 'b' && MatlabItem[70] == 's' && MatlabItem[71] == 't'
    ensures MatlabItem[72] == 'a' && MatlabItem[73] == 'c' && MatlabItem[74] == 'l' && MatlabItem[75] == 'e'
  {
  }

  /** Helper: "path" at position 53 of the MATLAB item. */
  lemma MatlabPath()
    ensures MatlabItem[53] == 'p' && MatlabItem[54] == 'a' && MatlabItem[55] == 't' && MatlabItem[56] == 'h'
  {
  }

  /** Helper: " pla" at position 57 of the MATLAB item. */
  lemma MatlabPla()
    ensures MatlabItem[57] == ' ' && MatlabItem[58] == 'p' && MatlabItem[59] == 'l' && MatlabItem[60] == 'a'
  {
  }

  /** Helper: "nning" at position 61 of the MATLAB item. */
  lemma MatlabNning()
    ensures MatlabItem[61] == 'n' && MatlabItem[62] == 'n' && MatlabItem[63] == 'i' && MatlabItem[64] == 'n'
    ensures MatlabItem[65] == 'g'
  {
  }

  /** Helper: "Obst" at the start of the wall item. */
  lemma WallObst()
    ensures |WallItem| == 44
    ensures WallItem[0] == 'O' && WallItem[1] == 'b' && WallItem[2] == 's' && WallItem[3] == 't'
  {
  }

  /** Helper: "acle" at position 4 of the wall item. */
  lemma WallAcle()
    ensures WallItem[4] == 'a' && WallItem[5] == 'c' && WallItem[6] == 'l' && WallItem[7] == 'e'
  {
  }
}

module ShippedDetailFacts {
  import opened Wrappers
  import opened Text
  import opened ShippedItems
  import opened ProjectSchema
  import opened ProjectData
  import opened ProjectDetail
  import ShippedFacts

  /** The training details of the maze robot, which its strategy cards are sorted from. */
  function MazeTrainingDetails(): seq<string> {
    OrEmpty(AutonomousMazeRobot.technicalImplementation.value.trainingDetails)
  }

  /** Helper: the two items of the maze robot's training details the bucket lemmas look at. */
  lemma MazeItems()
    ensures |MazeTrainingDetails()| == 11
    ensures MazeTrainingDetails()[1] == MatlabItem
    ensures MazeTrainingDetails()[9] == WallItem
  {
  }

  /** Helper: the MATLAB item mentions an obstacle and path planning. */
  lemma MatlabItemMatches()
    ensures MatchesAny(MatlabItem, ObstacleKeywords)
    ensures MatchesAny(MatlabItem, LocalizationKeywords)
  {
    MatlabObstacle();
    LoweredOccurrence(MatlabItem, "obstacle", 68);
    assert ObstacleKeywords[0] == "obstacle";
    MatlabPath();
    MatlabPla();
    MatlabNning();
    LoweredOccurrence(MatlabItem, "path planning", 53);
    assert LocalizationKeywords[2] == "path planning";
  }

  /** Helper: the wall item starts with a capitalised "Obstacle", which lowering turns into the keyword. */
  lemma WallItemMatches()
    ensures MatchesAny(WallItem, ObstacleKeywords)
  {
    WallObst();
    WallAcle();
    LoweredOccurrence(WallItem, "obstacle", 0);
    assert ObstacleKeywords[0] == "obstacle";
  }

  /**
   * "MATLAB control algorithms: Navigation, localization, path planning,
   * obstacle avoidance" is sorted into both the obstacle-avoidance and the
   * localization cards, and "Obstacle avoidance: Wall distance thresholds"
   * into the obstacle-avoidance card despite its capital letter.
   */
  lemma ShippedBuckets()
    ensures |MazeTrainingDetails()| == 11
    ensures MazeTrainingDetails()[1] in Bucket(MazeTrainingDetails(), ObstacleKeywords)
    ensures MazeTrainingDetails()[1] in Bucket(MazeTrainingDetails(), LocalizationKeywords)
    ensures MazeTrainingDetails()[9] in Bucket(MazeTrainingDetails(), ObstacleKeywords)
  {
    MazeItems();
    MatlabItemMatches();
    WallItemMatches();
    InBucket(MazeTrainingDetails(), 1, ObstacleKeywords);
    InBucket(MazeTrainingDetails(), 1, LocalizationKeywords);
    InBucket(MazeTrainingDetails(), 9, ObstacleKeywords);
  }

  /** Helper: a matching item of the list is in its bucket. */
  lemma InBucket(items: seq<string>, i: nat, keywords: seq<string>)
    requires i < |items| && MatchesAny(items[i], keywords)
    ensures items[i] in Bucket(items, keywords)
  {
  }

  /**
   * The maze page shows its simulation video under "Simulation
   * Demonstration" and its operation video inside the results, and no other.
   */
  lemma MazePagePlaysBothVideos()
    ensures AutonomousMazeRobot.videos.Some? && |AutonomousMazeRobot.videos.value| == 2
    ensures VideoSources(AutonomousMazeRobot, SimulationDemonstration) == [AutonomousMazeRobot.videos.value[0].src]
    ensures VideoSources(AutonomousMazeRobot, FinalResults) == [AutonomousMazeRobot.videos.value[1].src]
    ensures forall k :: k != SimulationDemonstration && k != FinalResults ==> VideoSources(AutonomousMazeRobot, k) == []
  {
    ShippedFacts.MazeVideos();
    BespokeVideos(AutonomousMazeRobot);
  }
}
