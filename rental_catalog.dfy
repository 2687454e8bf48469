/**
 * The fourteen tools the rental store ships with (src/store/rentalStore.js)
 * and what the store's pipeline makes of them.
 */
module RentalCatalog {
  import opened Basics
  import opened Strings
  import opened Seqs
  import opened RentalStore

  const Tractor: Tool :=
    Tool(1, "Tractor - Medium Duty", "Heavy Equipment", "Tractors", 45, 127, 25000, true,
    "Ahafo Farm Hub",
    "Medium-duty tractor ideal for small to medium farms. 75HP engine with multiple attachments available.")

  const SeedDrill: Tool :=
    Tool(2, "Professional Seed Drill", "Planting Equipment", "Seeders", 48, 84, 12000, true,
    "Eastern Field Valley",
    "Six-row seed drill with precise depth control and spacing adjustments for optimal planting results.")

  const IrrigationSystem: Tool :=
    Tool(3, "Industrial Irrigation System", "Irrigation", "Sprinklers", 42, 56, 17500, false,
    "Western Valley Depot",
    "Complete irrigation system with pump, pipes, and sprinklers. Covers up to 5 acres with adjustable spray patterns.")

  const Harvester: Tool :=
    Tool(4, "Commercial Harvester", "Harvesting", "Combines", 47, 93, 30000, true,
    "Southern Field Station",
    "Multi-crop harvester with adjustable settings for various grains and produce. 15-foot cutting width.")

  const WoodChipper: Tool :=
    Tool(5, "Portable Wood Chipper", "Maintenance", "Chippers", 41, 62, 8500, true,
    "Western Farm Hub",
    "Gas-powered wood chipper capable of handling branches up to 4 inches in diameter.")

  const PostHoleDigger: Tool :=
    Tool(6, "Heavy-Duty Post Hole Digger", "Construction", "Diggers", 44, 41, 6500, true,
    "Northern Field Supply",
    "Hydraulic post hole digger with multiple auger sizes (6\", 9\", and 12\"). Tractor attachment.")

  const LivestockTrailer: Tool :=
    Tool(7, "Livestock Trailer", "Transport", "Trailers", 46, 78, 11000, false,
    "Cape Coast Field Station",
    "Dual-axle livestock trailer with dividers, capacity for up to 6 cattle or 12 small livestock.")

  const SprayerSystem: Tool :=
    Tool(8, "Commercial Sprayer System", "Crop Care", "Sprayers", 43, 54, 13000, true,
    "Temale Field Station",
    "500-gallon tank sprayer with 40-foot boom. Includes precision nozzles and electronic controls.")

  const FertilizerSpreader: Tool :=
    Tool(9, "Industrial Fertilizer Spreader", "Crop Care", "Spreaders", 45, 63, 9500, true,
    "Central Farm Hub",
    "3-ton capacity fertilizer spreader with adjustable spread pattern and rate control.")

  const Plow: Tool :=
    Tool(10, "Heavy-Duty Plow", "Tillage", "Plows", 44, 89, 8500, true,
    "Kumasi Valley Depot",
    "5-bottom moldboard plow for primary tillage operations. Adjustable depth control.")

  const RotaryTiller: Tool :=
    Tool(11, "Rotary Tiller", "Tillage", "Tillers", 42, 71, 7500, true,
    "Accra Field Supply",
    "8-foot rotary tiller for seedbed preparation. PTO-driven with adjustable tilling depth.")

  const BoomLift: Tool :=
    Tool(12, "Boom Lift", "Maintenance", "Lifts", 47, 36, 18000, false,
    "Ho Farm Hub",
    "40-foot articulating boom lift for orchard maintenance, building repairs, and other elevated work.")

  const MiniExcavator: Tool :=
    Tool(13, "Mini Excavator", "Planting Equipment", "Seeders", 48, 84, 12000, true,
    "Eastern Field Valley",
    "Six-row seed drill with precise depth control and spacing adjustments for optimal planting results.")

  const FarmingTools: Tool :=
    Tool(14, "Farming tools", "Planting Equipment", "Seeders", 50, 56, 12000, true,
    "Western Valley Depot",
    "Weeding makes easy with these tools.")

  /** TOOLS_DATA, in catalog order. */
  const ToolsData: seq<Tool> := [
    Tractor, SeedDrill, IrrigationSystem, Harvester, WoodChipper,
    PostHoleDigger, LivestockTrailer, SprayerSystem, FertilizerSpreader, Plow,
    RotaryTiller, BoomLift, MiniExcavator, FarmingTools]

  /** With no filters the whole catalog is listed, on 3 pages. */
  lemma UnfilteredCatalogPaging()
    ensures FilteredTools(ToolsData, InitialState) == ToolsData
    ensures TotalPages(ToolsData, InitialState) == 3
  {
    NoFiltersKeepsCatalog(ToolsData, InitialState);
    SortedLength(ToolsData, InitialState);
  }

  /** Fourteen matching tools: page 3 holds the last 2 and page 4 is empty. */
  lemma FourteenToolsPaging(tools: seq<Tool>, st: ViewState)
    requires |FilteredTools(tools, st)| == 14
    ensures st.currentPage == 3 ==> |PaginatedTools(tools, st)| == 2
    ensures st.currentPage == 4 ==> PaginatedTools(tools, st) == []
  {
    SortedLength(tools, st);
  }

  /** On the shipped catalog, page 3 holds 2 tools and page 4 none. */
  lemma UnfilteredLastPage()
    ensures |PaginatedTools(ToolsData, InitialState.(currentPage := 3))| == 2
    ensures PaginatedTools(ToolsData, InitialState.(currentPage := 4)) == []
  {
    NoFiltersKeepsCatalog(ToolsData, InitialState.(currentPage := 3));
    NoFiltersKeepsCatalog(ToolsData, InitialState.(currentPage := 4));
    FourteenToolsPaging(ToolsData, InitialState.(currentPage := 3));
    FourteenToolsPaging(ToolsData, InitialState.(currentPage := 4));
  }

  /** The availability flags of the catalog, in order. */
  const Availability: seq<bool> :=
    [true, true, false, true, true, true, false, true, true, true, true, false, true, true]

  lemma AvailabilityOfTools()
    ensures |ToolsData| == |Availability|
    ensures forall k :: 0 <= k < |ToolsData| ==> ToolsData[k].available == Availability[k]
  {
  }

  /** The number of set flags. */
  function SetFlags(flags: seq<bool>): nat
  {
    if flags == [] then 0 else (if flags[0] then 1 else 0) + SetFlags(flags[1..])
  }

  /** Counting the tools that satisfy `p` is counting their flags. */
  lemma {:induction false} CountIsSetFlags(p: Tool -> bool, s: seq<Tool>, flags: seq<bool>)
    requires |s| == |flags|
    requires forall k :: 0 <= k < |s| ==> p(s[k]) == flags[k]
    ensures CountWhere(p, s) == SetFlags(flags)
    decreases |s|
  {
    if s != [] {
      assert p(s[0]) == flags[0];
      CountIsSetFlags(p, s[1..], flags[1..]);
    }
  }

  /** Any 14 tools with the catalog's availability flags: 11 are available. */
  lemma CountAvailable(p: Tool -> bool, s: seq<Tool>)
    requires |s| == 14
    requires forall k :: 0 <= k < 14 ==> p(s[k]) == Availability[k]
    ensures CountWhere(p, s) == 11
  {
    CountIsSetFlags(p, s, Availability);
    AvailabilitySetFlags();
  }

  /** Counting flags distributes over concatenation. */
  lemma {:induction false} SetFlagsAppend(a: seq<bool>, b: seq<bool>)
    ensures SetFlags(a + b) == SetFlags(a) + SetFlags(b)
    decreases |a|
  {
    if a == [] {
      assert a + b == b;
    } else {
      assert (a + b)[1..] == a[1..] + b;
      SetFlagsAppend(a[1..], b);
    }
  }

  /** Eleven of the catalog's flags are set: 4, 4 and 3 in its three parts. */
  lemma AvailabilitySetFlags()
    ensures SetFlags(Availability) == 11
  {
    var first, second, third := [true, true, false, true, true], [true, false, true, true, true], [true, false, true, true];
    assert Availability == first + second + third;
    SetFlagsAppend(first, second);
    SetFlagsAppend(first + second, third);
  }

  /** Three tools are unavailable, so "available only" leaves 11, on 2 pages. */
  lemma AvailableOnlyLeavesEleven()
    ensures |FilteredTools(ToolsData, InitialState.(availableOnly := true))| == 11
    ensures TotalPages(ToolsData, InitialState.(availableOnly := true)) == 2
  {
    var st := InitialState.(availableOnly := true);
    var p := (t: Tool) => MatchesFilters(st, t);
    AvailabilityOfTools();
    CountAvailable(p, ToolsData);
    FilterLength(p, ToolsData);
    SortedLength(ToolsData, st);
  }

  /** The post hole digger's name does not contain "tractor": it has no `c`. */
  lemma DiggerNameLacksTractor()
    ensures !MatchesQuery(PostHoleDigger.name, "tractor")
  {
    var name := Lower(PostHoleDigger.name);
    forall j | 0 <= j < |name|
      ensures name[j] != 'c'
    {
    }
    forall i | 0 <= i <= |name| - 7
      ensures !OccursAt(name, Lower("tractor"), i)
    {
      assert Lower("tractor")[3] == 'c';
      assert name[i..i + 7][3] == name[i + 3];
    }
  }

  /** Its description ends in "Tractor attachment." */
  lemma DiggerDescriptionHasTractor()
    ensures MatchesQuery(PostHoleDigger.description, "tractor")
  {
    var desc := Lower(PostHoleDigger.description);
    assert desc[72..79] == "tractor";
    assert OccursAt(desc, Lower("tractor"), 72);
  }

  /**
   * The search box also looks at descriptions: "tractor" finds the post hole
   * digger, whose name does not contain it, through "Tractor attachment".
   */
  lemma SearchMatchesDescriptions()
    ensures !MatchesQuery(PostHoleDigger.name, "tractor")
    ensures PostHoleDigger in FilteredTools(ToolsData, InitialState.(searchTerm := "tractor"))
  {
    DiggerNameLacksTractor();
    DiggerDescriptionHasTractor();
    assert ToolsData[5] == PostHoleDigger;
    FilteredToolsSpec(ToolsData, InitialState.(searchTerm := "tractor"));
  }
}
