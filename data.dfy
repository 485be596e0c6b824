/** The dashboard's dataset: constant tables transcribed from the U.S.
    Geological Survey rare-earths summary, and the plain-text digest of them
    that grounds every question put to the language model. Nothing here is
    ever changed. */
module Data {
  import opened Types
  import opened JsString

  const SALIENT_PRODUCTION_MINERAL_CONCENTRATES: SalientProductionItem :=
    SalientProductionItem("Mineral Concentrates Production (tons REO)", [
      YearValue(2020, Some(39000)),
      YearValue(2021, Some(42400)),
      YearValue(2022, Some(42500)),
      YearValue(2023, Some(41600)),
      YearValue(2024, Some(45000))
    ])

  /** The 2020 point has no figure: it is absent, not zero. */
  const SALIENT_PRODUCTION_COMPOUNDS_METALS: SalientProductionItem :=
    SalientProductionItem("Compounds and Metals Production (tons REO)", [
      YearValue(2020, None),
      YearValue(2021, Some(120)),
      YearValue(2022, Some(95)),
      YearValue(2023, Some(250)),
      YearValue(2024, Some(1300))
    ])

  /** The two figures each `Metals` entry is written as the sum of: ferrocerium
      and alloys, then other rare-earth metals. */
  const METALS_PARTS: seq<(int, int)> := [(270, 363), (330, 580), (395, 487), (259, 476), (220, 90)]

  const SALIENT_IMPORTS_DATA: seq<SalientImportItem> := [
    SalientImportItem(2020, Some(6510), Some(270 + 363)),
    SalientImportItem(2021, Some(7690), Some(330 + 580)),
    SalientImportItem(2022, Some(10700), Some(395 + 487)),
    SalientImportItem(2023, Some(8920), Some(259 + 476)),
    SalientImportItem(2024, Some(8000), Some(220 + 90))
  ]

  /** The four oxides every price row carries, in the order the rows list them. */
  const OXIDES: seq<string> := ["Neodymium Oxide", "Terbium Oxide", "Cerium Oxide", "Dysprosium Oxide"]

  const SALIENT_PRICES_DATA: seq<SalientPriceItem> := [
    [Field("year", Some(2020)), Field("Neodymium Oxide", Some(49)), Field("Terbium Oxide", Some(670)),
     Field("Cerium Oxide", Some(2)), Field("Dysprosium Oxide", Some(261))],
    [Field("year", Some(2021)), Field("Neodymium Oxide", Some(98)), Field("Terbium Oxide", Some(1346)),
     Field("Cerium Oxide", Some(2)), Field("Dysprosium Oxide", Some(410))],
    [Field("year", Some(2022)), Field("Neodymium Oxide", Some(134)), Field("Terbium Oxide", Some(2051)),
     Field("Cerium Oxide", Some(1)), Field("Dysprosium Oxide", Some(382))],
    [Field("year", Some(2023)), Field("Neodymium Oxide", Some(78)), Field("Terbium Oxide", Some(1298)),
     Field("Cerium Oxide", Some(1)), Field("Dysprosium Oxide", Some(330))],
    [Field("year", Some(2024)), Field("Neodymium Oxide", Some(56)), Field("Terbium Oxide", Some(810)),
     Field("Cerium Oxide", Some(1)), Field("Dysprosium Oxide", Some(260))]
  ]

  const IMPORT_SOURCES_DATA: seq<NameValuePercentage> := [
    NameValuePercentage("China", 70),
    NameValuePercentage("Malaysia", 13),
    NameValuePercentage("Japan", 6),
    NameValuePercentage("Estonia", 5),
    NameValuePercentage("Other", 6)
  ]

  const TARIFF_DATA: seq<TariffItem> := [
    TariffItem("Rare-earth metals", "2805.30.0000", "5% ad valorem."),
    TariffItem("Cerium compounds", "2846.10.0000", "5.5% ad valorem."),
    TariffItem("Other rare-earth compounds: Oxides or chlorides", "2846.90.2000", "Free."),
    TariffItem("Other rare-earth compounds: Carbonates", "2846.90.8000", "3.7% ad valorem."),
    TariffItem("Ferrocerium and other pyrophoric alloys", "3606.90.3000", "5.9% ad valorem.")
  ]

  const WORLD_MINE_PRODUCTION_DATA: seq<WorldMineProductionItem> := [
    WorldMineProductionItem("United States", Some(41600), Some(45000)),
    WorldMineProductionItem("Australia", Some(16000), Some(13000)),
    WorldMineProductionItem("Brazil", Some(140), Some(20)),
    WorldMineProductionItem("Burma", Some(43000), Some(31000)),
    WorldMineProductionItem("China", Some(255000), Some(270000)),
    WorldMineProductionItem("India", Some(2900), Some(2900)),
    WorldMineProductionItem("Russia", Some(2500), Some(2500)),
    WorldMineProductionItem("Thailand", Some(3600), Some(13000)),
    WorldMineProductionItem("Vietnam", Some(300), Some(300))
  ]

  const WORLD_RESERVES_DATA: seq<WorldReserveItem> := [
    WorldReserveItem("United States", Some(1900000)),
    WorldReserveItem("Australia", Some(5700000)),
    WorldReserveItem("Brazil", Some(21000000)),
    WorldReserveItem("Canada", Some(830000)),
    WorldReserveItem("China", Some(44000000)),
    WorldReserveItem("Greenland", Some(1500000)),
    WorldReserveItem("India", Some(6900000)),
    WorldReserveItem("Russia", Some(3800000)),
    WorldReserveItem("South Africa", Some(860000)),
    WorldReserveItem("Tanzania", Some(890000)),
    WorldReserveItem("Vietnam", Some(3500000))
  ]

  /** The lines of the summary's template literal, between its opening
      newline and its closing indentation. */
  const SUMMARY_LINES: seq<string> := [
    "Key highlights " + "from U.S. Geological Survey Rare Earths data:",
    "Domestic Production (2024): Mineral concentrates at 45,000 tons REO. Leading end use is catalysts.",
    "Import Sources (2020-23): China (70%), Malaysia (13%), Japan (6%), Estonia (5%).",
    "Salient Statistics (US, 2024):",
    "  - Mineral Concentrates Production: 45,000 tons",
    "  - Compounds and Metals Production: 1,300 tons",
    "  - Compound Imports: 8,000 tons",
    "  - Metal Imports: 310 tons (220 Ferrocerium, 90 other RE metals)",
    "  - Neodymium Oxide Price: $56/kg",
    "  - Terbium Oxide Price: $810/kg",
    "World Mine Production (2024, selected, tons REO):",
    "  - China: 270,000 (quota)",
    "  - USA: 45,000",
    "  - Australia: 13,000",
    "  - Burma: 31,000",
    "  - Thailand: 13,000",
    "World Reserves (selected, tons REO):",
    "  - China: 44,000,000",
    "  - Brazil: 21,000,000",
    "  - Vietnam: 3,500,000 (PDF has 3,500,000 for Vietnam, not one of the largest listed as text on page 2)",
    "  - Australia: 5,700,000",
    "  - India: 6,900,000",
    "  - USA: 1,900,000",
    "Recycling: Limited recovery from batteries, magnets, lamps.",
    "Tariffs: Vary, e.g., 5% on RE metals, 5.5% on Cerium compounds, some oxides free.",
    "---",
    "Note: All data is in metric tons, rare-earth-oxide (REO) equivalent, unless otherwise specified. Values for 2024 are estimates."
  ]

  /** The template literal itself: a newline, the lines, a newline and the
      two spaces of indentation before the closing backtick. */
  const SUMMARY_TEMPLATE: string := "\n" + Join(SUMMARY_LINES, "\n") + "\n  "

  /** The summary's first line starts, and its last line ends, with a
      character that is not white. */
  lemma SummaryLineEnds()
    ensures SUMMARY_LINES[0] != [] && !IsWhite(SUMMARY_LINES[0][0])
    ensures var last := SUMMARY_LINES[|SUMMARY_LINES| - 1]; last != [] && !IsWhite(last[|last| - 1])
  {
  }

  /** A template literal laid out as a newline, lines, a newline and an
      indentation trims to the lines joined by newlines, as long as the text
      itself starts and ends with a character that is not white. */
  lemma {:induction false} TrimIndentedTemplate(lines: seq<string>)
    requires lines != [] && lines[0] != [] && !IsWhite(lines[0][0])
    requires var last := lines[|lines| - 1]; last != [] && !IsWhite(last[|last| - 1])
    ensures Trim("\n" + Join(lines, "\n") + "\n  ") == Join(lines, "\n")
  {
    JoinEnds(lines, "\n");
    TrimPadded("\n", Join(lines, "\n"), "\n  ");
  }

  /** `getGeminiContextSummary`: the template with its surrounding
      whitespace trimmed, which leaves exactly the lines joined by newlines. */
  function ContextSummary(): (r: string)
    ensures r == Join(SUMMARY_LINES, "\n")
  {
    SummaryLineEnds();
    TrimIndentedTemplate(SUMMARY_LINES);
    Trim(SUMMARY_TEMPLATE)
  }
}

/** Facts about the constant tables, each checked against the literal data. */
module DataFacts {
  import opened Types
  import opened Data

  /** Every year of a series, in order, one per year from `first` to `last`. */
  predicate CoversYears(data: seq<YearValue>, first: int, last: int)
  {
    && |data| == last - first + 1
    && forall i :: 0 <= i < |data| ==> data[i].year == first + i
  }

  predicate StrictlyAscendingYears(data: seq<YearValue>)
  {
    forall i, j :: 0 <= i < j < |data| ==> data[i].year < data[j].year
  }

  /** A series that covers a range of years lists them strictly ascending. */
  lemma CoversYearsAscending(data: seq<YearValue>, first: int, last: int)
    requires CoversYears(data, first, last)
    ensures StrictlyAscendingYears(data)
  {
  }

  /** Both production series run 2020..2024 in strictly ascending order. */
  lemma ProductionSeriesYears()
    ensures CoversYears(SALIENT_PRODUCTION_MINERAL_CONCENTRATES.data, 2020, 2024)
    ensures CoversYears(SALIENT_PRODUCTION_COMPOUNDS_METALS.data, 2020, 2024)
    ensures StrictlyAscendingYears(SALIENT_PRODUCTION_MINERAL_CONCENTRATES.data)
    ensures StrictlyAscendingYears(SALIENT_PRODUCTION_COMPOUNDS_METALS.data)
  {
    CoversYearsAscending(SALIENT_PRODUCTION_MINERAL_CONCENTRATES.data, 2020, 2024);
    CoversYearsAscending(SALIENT_PRODUCTION_COMPOUNDS_METALS.data, 2020, 2024);
  }

  /** The 2020 compounds-and-metals figure is missing, not zero; every other
      production point has a figure. */
  lemma CompoundsMetals2020Absent()
    ensures SALIENT_PRODUCTION_COMPOUNDS_METALS.data[0] == YearValue(2020, None)
    ensures forall i :: 1 <= i < 5 ==> SALIENT_PRODUCTION_COMPOUNDS_METALS.data[i].value.Some?
    ensures forall i :: 0 <= i < 5 ==> SALIENT_PRODUCTION_MINERAL_CONCENTRATES.data[i].value.Some?
  {
  }

  /** The reserves table has eleven rows and a figure in every one. */
  lemma ReservesComplete()
    ensures |WORLD_RESERVES_DATA| == 11
    ensures forall i :: 0 <= i < |WORLD_RESERVES_DATA| ==> WORLD_RESERVES_DATA[i].reserves.Some?
  {
  }

  function SumShares(xs: seq<NameValuePercentage>): int
  {
    if xs == [] then 0 else xs[0].value + SumShares(xs[1..])
  }

  /** The import-source shares add up to 100 percent. */
  lemma ImportSharesSumTo100()
    ensures SumShares(IMPORT_SOURCES_DATA) == 100
  {
  }

  /** Every `Metals` figure is the sum of its two parts. */
  lemma ImportMetalsAreSums()
    ensures |SALIENT_IMPORTS_DATA| == |METALS_PARTS|
    ensures forall i :: 0 <= i < |SALIENT_IMPORTS_DATA| ==>
      SALIENT_IMPORTS_DATA[i].metals == Some(METALS_PARTS[i].0 + METALS_PARTS[i].1)
  {
  }

  /** A row keyed `year` and then the four oxides, in that order, has plain
      keys: the five names are distinct and none starts with a digit. */
  lemma PriceRowPlain(row: SalientPriceItem)
    requires |row| == |OXIDES| + 1
    requires forall i :: 0 <= i < |row| ==> row[i].key == (["year"] + OXIDES)[i]
    ensures PlainKeys(row)
  {
  }

  /** Every price row, as written, has the same keys in the same order,
      `year` and then the four oxides, and they are plain keys, so
      `Object.keys` lists them in that order. */
  lemma PriceRowsShareKeys()
    ensures forall i :: 0 <= i < |SALIENT_PRICES_DATA| ==> PlainKeys(SALIENT_PRICES_DATA[i])
    ensures forall i :: 0 <= i < |SALIENT_PRICES_DATA| ==>
      ObjectKeys(SALIENT_PRICES_DATA[i]) == ["year"] + OXIDES
  {
    forall i | 0 <= i < |SALIENT_PRICES_DATA|
      ensures PlainKeys(SALIENT_PRICES_DATA[i])
      ensures ObjectKeys(SALIENT_PRICES_DATA[i]) == ["year"] + OXIDES
    {
      PriceRowPlain(SALIENT_PRICES_DATA[i]);
    }
  }

  /** The 2024 metal-imports figure is 220 + 90 = 310 tons, the figure and
      the two parts the summary's metal-imports line states. */
  lemma SummaryMetalImports()
    ensures SALIENT_IMPORTS_DATA[4] == SalientImportItem(2024, Some(8000), Some(310))
    ensures METALS_PARTS[4] == (220, 90)
    ensures SUMMARY_LINES[6] == "  - Compound Imports: 8,000 tons"
    ensures SUMMARY_LINES[7] == "  - Metal Imports: 310 tons (220 Ferrocerium, 90 other RE metals)"
  {
  }
}
