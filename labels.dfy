/**
 * The hard-coded table from meter channel number to appliance name
 * (house 5 of the UK-DALE recordings).
 */
module Labels {

  const LabelDict: map<int, string> := map[
    1 := "aggregate",
    2 := "stereo_speakers_bedroom",
    3 := "i7_desktop",
    4 := "hairdryer",
    5 := "primary_tv",
    6 := "24_inch_lcd_bedroom",
    7 := "treadmill",
    8 := "network_attached_storage",
    9 := "core2_server",
    10 := "24_inch_lcd",
    11 := "PS4",
    12 := "steam_iron",
    13 := "nespresso_pixie",
    14 := "atom_pc",
    15 := "toaster",
    16 := "home_theatre_amp",
    17 := "sky_hd_box",
    18 := "kettle",
    19 := "fridge_freezer",
    20 := "oven",
    21 := "electric_hob",
    22 := "dishwasher",
    23 := "microwave",
    24 := "washer_dryer",
    25 := "vacuum_cleaner"
  ]

  /** The known channels are exactly 1 through 25. */
  lemma LabelKeys()
    ensures forall c :: c in LabelDict <==> 1 <= c <= 25
  {
  }

  /** No two channels share an appliance name. */
  lemma LabelsDistinct(a: int, b: int)
    requires a in LabelDict && b in LabelDict && a != b
    ensures LabelDict[a] != LabelDict[b]
  {
  }

  /** Channel 7 is the treadmill. */
  lemma SevenIsTreadmill()
    ensures 7 in LabelDict && LabelDict[7] == "treadmill"
  {
  }
}
