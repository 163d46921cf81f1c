/** The line-code catalogue of src/zepben/edith/linecode_catalogue.py: a fixed
    table of standard conductor types, each with its phase count, normal and
    emergency current ratings in amps, zero- and positive-sequence resistance
    and reactance, and a high-voltage flag.

    The dataclass declares the ratings and impedances `float`, but does not
    convert what it is given: the entries of lines 64-95 give their ratings as
    integers, which Python compares exactly with floats. They are only ever
    compared, never computed with, so they are modelled as exact `real`
    decimals. Every two distinct ratings in the table are far apart, so they
    compare the same way as decimals as they do as Python numbers. */
module LinecodeCatalogue {

  /** One catalogue entry (the `LC` dataclass). As in the source, `hv` is
      false for an entry that does not give it. */
  datatype LC = LC(
    name: string,
    phases: int,
    normAmps: real,
    emergAmps: real,
    r0: real,
    r1: real,
    x0: real,
    x1: real,
    hv: bool := false)

  /** `LINECODE_CATALOGUE`, in declaration order: entry `i` is declared on line
      `22 + i` of the source. The table is written as ten consecutive runs of
      conductors of one family, so that facts about it can be proved run by run. */
  const Catalogue: seq<LC> := HighVoltage + LowVoltage

  /** Lines 22-63: the high-voltage entries. */
  const HighVoltage: seq<LC> := HvAaacA + HvAaacB + HvAac + HvAcsrA + HvAcsrB

  /** Lines 64-95: the low-voltage entries. */
  const LowVoltage: seq<LC> := LvOverheadA + LvOverheadB + LvUndergroundA + LvUndergroundB + LvOther

  /** All-aluminium-alloy conductors (AAAC/1120), high voltage, Flourine to Hydrogen: lines 22-30 of src/zepben/edith/linecode_catalogue.py. */
  const HvAaacA: seq<LC> := [
    LC("Flourine_7/3.00_AAAC/1120_3W", phases := 3, normAmps := 165.38, emergAmps := 248.07, r0 := 0.0007516, r1 := 0.0006016, x0 := 0.001599, x1 := 0.000384, hv := true),
    LC("Flourine_7/3.00_AAAC/1120_2W", phases := 2, normAmps := 165.38, emergAmps := 248.07, r0 := 0.0007016, r1 := 0.0006016, x0 := 0.0011761, x1 := 0.0004013, hv := true),
    LC("Flourine_7/3.00_AAAC/1120_1W", phases := 1, normAmps := 165.38, emergAmps := 248.07, r0 := 0.0006516, r1 := 0.0006516, x0 := 0.0007887, x1 := 0.0007887, hv := true),
    LC("Helium_7/3.75_AAAC/1120_3W", phases := 3, normAmps := 215.62, emergAmps := 323.43, r0 := 0.0005353, r1 := 0.0003853, x0 := 0.0015862, x1 := 0.0003712, hv := true),
    LC("Helium_7/3.75_AAAC/1120_2W", phases := 2, normAmps := 215.62, emergAmps := 323.43, r0 := 0.0004853, r1 := 0.0003853, x0 := 0.0011633, x1 := 0.0003885, hv := true),
    LC("Helium_7/3.75_AAAC/1120_1W", phases := 1, normAmps := 215.62, emergAmps := 323.43, r0 := 0.0004353, r1 := 0.0004353, x0 := 0.0007759, x1 := 0.0007759, hv := true),
    LC("Hydrogen_7/4.50_AAAC/1120_3W", phases := 3, normAmps := 267.14, emergAmps := 400.71, r0 := 0.0004176, r1 := 0.0002676, x0 := 0.0015736, x1 := 0.0003586, hv := true),
    LC("Hydrogen_7/4.50_AAAC/1120_2W", phases := 2, normAmps := 267.14, emergAmps := 400.71, r0 := 0.0003676, r1 := 0.0002676, x0 := 0.0011507, x1 := 0.0003759, hv := true),
    LC("Hydrogen_7/4.50_AAAC/1120_1W", phases := 1, normAmps := 267.14, emergAmps := 400.71, r0 := 0.0003176, r1 := 0.0003176, x0 := 0.0007633, x1 := 0.0007633, hv := true)
  ]

  /** The rest of the AAAC/1120 conductors, Neon and Nitrogen: lines 31-36 of src/zepben/edith/linecode_catalogue.py. */
  const HvAaacB: seq<LC> := [
    LC("Neon_19/3.75_AAAC/1120_3W", phases := 3, normAmps := 386.19, emergAmps := 579.285, r0 := 0.0002933, r1 := 0.0001433, x0 := 0.0015503, x1 := 0.0003353, hv := true),
    LC("Neon_19/3.75_AAAC/1120_2W", phases := 2, normAmps := 386.19, emergAmps := 579.285, r0 := 0.0002433, r1 := 0.0001433, x0 := 0.0011274, x1 := 0.0003527, hv := true),
    LC("Neon_19/3.75_AAAC/1120_1W", phases := 1, normAmps := 386.19, emergAmps := 579.285, r0 := 0.0001933, r1 := 0.0001933, x0 := 0.00074, x1 := 0.00074, hv := true),
    LC("Nitrogen_37/3.00_AAAC/1120_3W", phases := 3, normAmps := 438.21, emergAmps := 657.315, r0 := 0.0002653, r1 := 0.0001153, x0 := 0.0015423, x1 := 0.0003274, hv := true),
    LC("Nitrogen_37/3.00_AAAC/1120_2W", phases := 2, normAmps := 438.21, emergAmps := 657.315, r0 := 0.0002153, r1 := 0.0001153, x0 := 0.0011195, x1 := 0.0003447, hv := true),
    LC("Nitrogen_37/3.00_AAAC/1120_1W", phases := 1, normAmps := 438.21, emergAmps := 657.315, r0 := 0.0001653, r1 := 0.0001653, x0 := 0.0007321, x1 := 0.0007321, hv := true)
  ]

  /** All-aluminium conductors (AAC/1350), high voltage: lines 37-45 of src/zepben/edith/linecode_catalogue.py. */
  const HvAac: seq<LC> := [
    LC("Neptune_19/3.25_AAC/1350_3W", phases := 3, normAmps := 333.38, emergAmps := 500.07, r0 := 0.0003325, r1 := 0.0001825, x0 := 0.0015592, x1 := 0.0003443, hv := true),
    LC("Neptune_19/3.25_AAC/1350_2W", phases := 2, normAmps := 333.38, emergAmps := 500.07, r0 := 0.0002825, r1 := 0.0001825, x0 := 0.0011364, x1 := 0.0003616, hv := true),
    LC("Neptune_19/3.25_AAC/1350_1W", phases := 1, normAmps := 333.38, emergAmps := 500.07, r0 := 0.0002325, r1 := 0.0002325, x0 := 0.000749, x1 := 0.000749, hv := true),
    LC("Pluto_19/3.75_AAC/1350_3W", phases := 3, normAmps := 393.27, emergAmps := 589.905, r0 := 0.0002875, r1 := 0.0001375, x0 := 0.0015503, x1 := 0.0003353, hv := true),
    LC("Pluto_19/3.75_AAC/1350_2W", phases := 2, normAmps := 393.27, emergAmps := 589.905, r0 := 0.0002375, r1 := 0.0001375, x0 := 0.0011274, x1 := 0.0003527, hv := true),
    LC("Pluto_19/3.75_AAC/1350_1W", phases := 1, normAmps := 393.27, emergAmps := 589.905, r0 := 0.0001875, r1 := 0.0001875, x0 := 0.00074, x1 := 0.00074, hv := true),
    LC("Mercury_7/4.50_AAC/1350_3W", phases := 3, normAmps := 271.92, emergAmps := 407.88, r0 := 0.000407, r1 := 0.000257, x0 := 0.0015736, x1 := 0.0003586, hv := true),
    LC("Mercury_7/4.50_AAC/1350_2W", phases := 2, normAmps := 271.92, emergAmps := 407.88, r0 := 0.000357, r1 := 0.000257, x0 := 0.0011507, x1 := 0.0003759, hv := true),
    LC("Mercury_7/4.50_AAC/1350_1W", phases := 1, normAmps := 271.92, emergAmps := 407.88, r0 := 0.000307, r1 := 0.000307, x0 := 0.0007633, x1 := 0.0007633, hv := true)
  ]

  /** Aluminium conductors, galvanised steel reinforced (ACSR/GZ), high voltage, Raisin to ACSR/GZ_2/5: lines 46-54 of src/zepben/edith/linecode_catalogue.py. */
  const HvAcsrA: seq<LC> := [
    LC("Raisin_3/4/2.50_ACSR/GZ_3W", phases := 3, normAmps := 96.2, emergAmps := 144.3, r0 := 0.0017764, r1 := 0.0016264, x0 := 0.0016735, x1 := 0.0004584, hv := true),
    LC("Raisin_3/4/2.50_ACSR/GZ_2W", phases := 2, normAmps := 96.2, emergAmps := 144.3, r0 := 0.0017264, r1 := 0.0016264, x0 := 0.0012505, x1 := 0.0004757, hv := true),
    LC("Raisin_3/4/2.50_ACSR/GZ_1W", phases := 1, normAmps := 96.2, emergAmps := 144.3, r0 := 0.0016764, r1 := 0.0016764, x0 := 0.0008631, x1 := 0.0008631, hv := true),
    LC("Rosella_4/3/0.093_ACSR/GZ_3W", phases := 3, normAmps := 94.03, emergAmps := 141.045, r0 := 0.0018151, r1 := 0.0016651, x0 := 0.0016096, x1 := 0.0003946, hv := true),
    LC("Rosella_4/3/0.093_ACSR/GZ_2W", phases := 2, normAmps := 94.03, emergAmps := 141.045, r0 := 0.0017651, r1 := 0.0016651, x0 := 0.0011868, x1 := 0.000412, hv := true),
    LC("Rosella_4/3/0.093_ACSR/GZ_1W", phases := 1, normAmps := 94.03, emergAmps := 141.045, r0 := 0.0017151, r1 := 0.0017151, x0 := 0.0007994, x1 := 0.0007994, hv := true),
    LC("ACSR/GZ_2/5/3.25_ACSR/GZ_3W", phases := 3, normAmps := 108.21, emergAmps := 162.315, r0 := 0.0015711, r1 := 0.0014211, x0 := 0.0015896, x1 := 0.0003746, hv := true),
    LC("ACSR/GZ_2/5/3.25_ACSR/GZ_2W", phases := 2, normAmps := 108.21, emergAmps := 162.315, r0 := 0.0015211, r1 := 0.0014211, x0 := 0.0011667, x1 := 0.000392, hv := true),
    LC("ACSR/GZ_2/5/3.25_ACSR/GZ_1W", phases := 1, normAmps := 108.21, emergAmps := 162.315, r0 := 0.0014711, r1 := 0.0014711, x0 := 0.0007794, x1 := 0.0007794, hv := true)
  ]

  /** The rest of the ACSR/GZ conductors, ACSR/GZ_6/1 to Banana: lines 55-63 of src/zepben/edith/linecode_catalogue.py. */
  const HvAcsrB: seq<LC> := [
    LC("ACSR/GZ_6/1/0.089_ACSR/GZ_3W", phases := 3, normAmps := 110.93, emergAmps := 166.395, r0 := 0.0013255, r1 := 0.0011755, x0 := 0.0016184, x1 := 0.0004034, hv := true),
    LC("ACSR/GZ_6/1/0.089_ACSR/GZ_2W", phases := 2, normAmps := 110.93, emergAmps := 166.395, r0 := 0.0012755, r1 := 0.0011755, x0 := 0.0011956, x1 := 0.0004208, hv := true),
    LC("ACSR/GZ_6/1/0.089_ACSR/GZ_1W", phases := 1, normAmps := 110.93, emergAmps := 166.395, r0 := 0.0012255, r1 := 0.0012255, x0 := 0.0008082, x1 := 0.0008082, hv := true),
    LC("Almond_6/1/2.50_ACSR/GZ_3W", phases := 3, normAmps := 121.32, emergAmps := 181.98, r0 := 0.0011725, r1 := 0.0010225, x0 := 0.0016172, x1 := 0.0004022, hv := true),
    LC("Almond_6/1/2.50_ACSR/GZ_2W", phases := 2, normAmps := 121.32, emergAmps := 181.98, r0 := 0.0011225, r1 := 0.0010225, x0 := 0.0011943, x1 := 0.0004195, hv := true),
    LC("Almond_6/1/2.50_ACSR/GZ_1W", phases := 1, normAmps := 121.32, emergAmps := 181.98, r0 := 0.0010725, r1 := 0.0010725, x0 := 0.0008069, x1 := 0.0008069, hv := true),
    LC("Banana_6/1/3.75_ACSR/GZ_3W", phases := 3, normAmps := 190.58, emergAmps := 285.87, r0 := 0.0006339, r1 := 0.0004839, x0 := 0.0015921, x1 := 0.0003771, hv := true),
    LC("Banana_6/1/3.75_ACSR/GZ_2W", phases := 2, normAmps := 190.58, emergAmps := 285.87, r0 := 0.0005839, r1 := 0.0004839, x0 := 0.0011692, x1 := 0.0003944, hv := true),
    LC("Banana_6/1/3.75_ACSR/GZ_1W", phases := 1, normAmps := 190.58, emergAmps := 285.87, r0 := 0.0005339, r1 := 0.0005339, x0 := 0.0007818, x1 := 0.0007818, hv := true)
  ]

  /** Low-voltage overhead conductors: the two XLPE aerial bundled cables and the AAAC conductors: lines 64-70 of src/zepben/edith/linecode_catalogue.py. */
  const LvOverheadA: seq<LC> := [
    LC("2_Core_Al_LV_XLPE_ABC_OH_2W", phases := 2, normAmps := 105.0, emergAmps := 157.5, r0 := 0.0014176, r1 := 0.0014176, x0 := 0.000089, x1 := 0.000089),
    LC("4_Core_Al_LV_XLPE_ABC_OH_4W", phases := 3, normAmps := 97.0, emergAmps := 145.5, r0 := 0.00595151, r1 := 0.0014176, x0 := 0.000097, x1 := 0.000097),
    LC("AAAC:7/4.50", phases := 3, normAmps := 383.0, emergAmps := 574.5, r0 := 0.000315100014, r1 := 0.000315100014, x0 := 0.000915000021, x1 := 0.000305000007),
    LC("AAAC:19/3.25", phases := 3, normAmps := 473.0, emergAmps := 709.5, r0 := 0.000225400001, r1 := 0.000225400001, x0 := 0.000871800006, x1 := 0.000290600002),
    LC("AAAC:19/3.75", phases := 3, normAmps := 562.0, emergAmps := 843.0, r0 := 0.000171200007, r1 := 0.000171200007, x0 := 0.000845099955, x1 := 0.000281699985),
    LC("AAAC:19/4.75", phases := 3, normAmps := 747.0, emergAmps := 1120.5, r0 := 0.000110600002, r1 := 0.000110600002, x0 := 0.000800399958, x1 := 0.000266799986),
    LC("AAAC:37/3.00", phases := 3, normAmps := 642.0, emergAmps := 963.0, r0 := 0.000138500005, r1 := 0.000138500005, x0 := 0.000821700006, x1 := 0.000273900002)
  ]

  /** Low-voltage aerial bundled cables (ABC): lines 71-77 of src/zepben/edith/linecode_catalogue.py. */
  const LvOverheadB: seq<LC> := [
    LC("ABC2w:25ABC", phases := 2, normAmps := 105.0, emergAmps := 157.5, r0 := 0.001417600036, r1 := 0.001417600036, x0 := 0.000267, x1 := 0.000089),
    LC("ABC2w:95ABC", phases := 2, normAmps := 230.0, emergAmps := 345.0, r0 := 0.000378600001, r1 := 0.000378600001, x0 := 0.00024, x1 := 0.00008),
    LC("ABC4w:25ABC", phases := 3, normAmps := 97.0, emergAmps := 145.5, r0 := 0.001417600036, r1 := 0.001417600036, x0 := 0.000291, x1 := 0.000097),
    LC("ABC4w:50ABC", phases := 3, normAmps := 140.0, emergAmps := 210.0, r0 := 0.000757300019, r1 := 0.000757300019, x0 := 0.000279, x1 := 0.000093),
    LC("ABC4w:70ABC", phases := 3, normAmps := 175.0, emergAmps := 262.5, r0 := 0.000524200022, r1 := 0.000524200022, x0 := 0.000264, x1 := 0.000088),
    LC("ABC4w:95ABC", phases := 3, normAmps := 215.0, emergAmps := 322.5, r0 := 0.000378600001, r1 := 0.000378600001, x0 := 0.000261, x1 := 0.000087),
    LC("ABC4w:150ABC", phases := 3, normAmps := 280.0, emergAmps := 420.0, r0 := 0.000244499996, r1 := 0.000244499996, x0 := 0.000252, x1 := 0.000084)
  ]

  /** Low-voltage copper underground cables: lines 78-83 of src/zepben/edith/linecode_catalogue.py. */
  const LvUndergroundA: seq<LC> := [
    LC("Cu_U/G:16C/4c", phases := 3, normAmps := 105.0, emergAmps := 157.5, r0 := 0.001399999976, r1 := 0.001399999976, x0 := 0.0002415, x1 := 0.0000805),
    LC("Cu_U/G:25C/4c", phases := 3, normAmps := 150.0, emergAmps := 225.0, r0 := 0.000884000003, r1 := 0.000884000003, x0 := 0.0002424, x1 := 0.0000808),
    LC("Cu_U/G:50C/4c", phases := 3, normAmps := 215.0, emergAmps := 322.5, r0 := 0.000470999986, r1 := 0.000470999986, x0 := 0.0002253, x1 := 0.0000751),
    LC("Cu_U/G:70C/1c", phases := 3, normAmps := 260.0, emergAmps := 390.0, r0 := 0.000326999992, r1 := 0.000326999992, x0 := 0.000312000006, x1 := 0.000104000002),
    LC("Cu_U/G:35mm/4C", phases := 3, normAmps := 135.0, emergAmps := 202.5, r0 := 0.000667999983, r1 := 0.000667999983, x0 := 0.000410999985, x1 := 0.000136999995),
    LC("Cu_U/G:50mm/4C", phases := 3, normAmps := 160.0, emergAmps := 240.0, r0 := 0.000493999988, r1 := 0.000493999988, x0 := 0.000389999985, x1 := 0.000129999995)
  ]

  /** Low-voltage aluminium and CONSAC underground cables: lines 84-89 of src/zepben/edith/linecode_catalogue.py. */
  const LvUndergroundB: seq<LC> := [
    LC("Al_UG:120A/4C", phases := 3, normAmps := 255.0, emergAmps := 382.5, r0 := 0.000310000002, r1 := 0.000310000002, x0 := 0.0002055, x1 := 0.0000685),
    LC("Al_UG:185A/4C", phases := 3, normAmps := 325.0, emergAmps := 487.5, r0 := 0.000202000007, r1 := 0.000202000007, x0 := 0.0002058, x1 := 0.0000686),
    LC("Al_UG:240A/4C", phases := 3, normAmps := 380.0, emergAmps := 570.0, r0 := 0.000153999999, r1 := 0.000153999999, x0 := 0.0002034, x1 := 0.0000678),
    LC("CONSAC:70mm", phases := 3, normAmps := 170.0, emergAmps := 255.0, r0 := 0.000541000009, r1 := 0.000541000009, x0 := 0.0001938, x1 := 0.0000646),
    LC("CONSAC:185mm", phases := 3, normAmps := 305.0, emergAmps := 457.5, r0 := 0.000201000005, r1 := 0.000201000005, x0 := 0.0001866, x1 := 0.0000622),
    LC("CONSAC:300mm", phases := 3, normAmps := 395.0, emergAmps := 592.5, r0 := 0.000123999998, r1 := 0.000123999998, x0 := 0.0001842, x1 := 0.0000614)
  ]

  /** Further low-voltage line codes and the two test line codes: lines 90-95 of src/zepben/edith/linecode_catalogue.py. */
  const LvOther: seq<LC> := [
    LC("line-237A-aac-7-3w", phases := 3, normAmps := 237.0, emergAmps := 355.5, r0 := 0.000684800029, r1 := 0.000684800029, x0 := 0.000330500007, x1 := 0.000330500007),
    LC("line-388A-aac-7-4.5-1w", phases := 1, normAmps := 388.0, emergAmps := 582.0, r0 := 0.000307099998, r1 := 0.000307099998, x0 := 0.000305, x1 := 0.000305),
    LC("line-479A-aac-19-3.25-3w", phases := 3, normAmps := 479.0, emergAmps := 582.0, r0 := 0.000219400004, r1 := 0.000219400004, x0 := 0.000290600002, x1 := 0.000290600002),
    LC("line-479A-aac-19-3.25-1w", phases := 1, normAmps := 479.0, emergAmps := 582.0, r0 := 0.000219400004, r1 := 0.000219400004, x0 := 0.000290600002, x1 := 0.000290600002),
    LC("test-linecode-1w", phases := 1, normAmps := 600.0, emergAmps := 800.0, r0 := 0.000219400004, r1 := 0.000219400004, x0 := 0.000290600002, x1 := 0.000290600002),
    LC("test-linecode-3w", phases := 3, normAmps := 600.0, emergAmps := 800.0, r0 := 0.000219400004, r1 := 0.000219400004, x0 := 0.000290600002, x1 := 0.000290600002)
  ]

  /** An entry that makes physical sense: one, two or three phases, and an
      emergency rating no lower than the normal rating. */
  predicate ValidEntry(e: LC) {
    1 <= e.phases <= 3 && e.normAmps <= e.emergAmps
  }

  predicate AllValid(s: seq<LC>) {
    forall i | 0 <= i < |s| :: ValidEntry(s[i])
  }

  /** The table has 74 entries and every one of them is valid. */
  lemma CatalogueEntriesValid()
    ensures |Catalogue| == 74
    ensures forall i | 0 <= i < |Catalogue| :: ValidEntry(Catalogue[i])
  {
    HighVoltageValid();
    LowVoltageValid();
  }

  lemma HighVoltageValid()
    ensures |HighVoltage| == 42 && AllValid(HighVoltage)
  {
    assert AllValid(HvAaacA);
    assert AllValid(HvAaacB);
    assert AllValid(HvAac);
    assert AllValid(HvAcsrA);
    assert AllValid(HvAcsrB);
  }

  lemma LowVoltageValid()
    ensures |LowVoltage| == 32 && AllValid(LowVoltage)
  {
    assert AllValid(LvOverheadA);
    assert AllValid(LvOverheadB);
    assert AllValid(LvUndergroundA);
    assert AllValid(LvUndergroundB);
    assert AllValid(LvOther);
  }

  /** The first 42 entries (lines 22-63) are the high-voltage ones; the
      remaining 32 (lines 64-95) do not give `hv` and so take its default,
      false. */
  lemma CatalogueHvSplit()
    ensures forall i | 0 <= i < |Catalogue| :: Catalogue[i].hv <==> i < 42
  {
    HighVoltageIsHv();
    LowVoltageIsNotHv();
  }

  lemma HighVoltageIsHv()
    ensures |HighVoltage| == 42
    ensures forall i | 0 <= i < |HighVoltage| :: HighVoltage[i].hv
  {
    assert forall i | 0 <= i < |HvAaacA| :: HvAaacA[i].hv;
    assert forall i | 0 <= i < |HvAaacB| :: HvAaacB[i].hv;
    assert forall i | 0 <= i < |HvAac| :: HvAac[i].hv;
    assert forall i | 0 <= i < |HvAcsrA| :: HvAcsrA[i].hv;
    assert forall i | 0 <= i < |HvAcsrB| :: HvAcsrB[i].hv;
  }

  lemma LowVoltageIsNotHv()
    ensures |LowVoltage| == 32
    ensures forall i | 0 <= i < |LowVoltage| :: !LowVoltage[i].hv
  {
    assert forall i | 0 <= i < |LvOverheadA| :: !LvOverheadA[i].hv;
    assert forall i | 0 <= i < |LvOverheadB| :: !LvOverheadB[i].hv;
    assert forall i | 0 <= i < |LvUndergroundA| :: !LvUndergroundA[i].hv;
    assert forall i | 0 <= i < |LvUndergroundB| :: !LvUndergroundB[i].hv;
    assert forall i | 0 <= i < |LvOther| :: !LvOther[i].hv;
  }

  /** No two entries share a name. */
  predicate NamesDistinct(s: seq<LC>) {
    forall i, j | 0 <= i < j < |s| :: s[i].name != s[j].name
  }

  /** No entry of `a` shares a name with an entry of `b`. */
  predicate NamesDisjoint(a: seq<LC>, b: seq<LC>) {
    forall i, j | 0 <= i < |a| && 0 <= j < |b| :: a[i].name != b[j].name
  }

  lemma DistinctAppend(a: seq<LC>, b: seq<LC>)
    requires NamesDistinct(a) && NamesDistinct(b) && NamesDisjoint(a, b)
    ensures NamesDistinct(a + b)
  {
  }

  lemma DisjointAppend(a: seq<LC>, b: seq<LC>, c: seq<LC>)
    requires NamesDisjoint(a, c) && NamesDisjoint(b, c)
    ensures NamesDisjoint(a + b, c)
  {
  }

  lemma DisjointAppendRight(a: seq<LC>, b: seq<LC>, c: seq<LC>)
    requires NamesDisjoint(a, b) && NamesDisjoint(a, c)
    ensures NamesDisjoint(a, b + c)
  {
  }

  // The names of each run, and of each pair of runs, checked one at a time.
  lemma HvAaacANamesDistinct() ensures NamesDistinct(HvAaacA) {}
  lemma HvAaacBNamesDistinct() ensures NamesDistinct(HvAaacB) {}
  lemma HvAacNamesDistinct() ensures NamesDistinct(HvAac) {}
  lemma HvAcsrANamesDistinct() ensures NamesDistinct(HvAcsrA) {}
  lemma HvAcsrBNamesDistinct() ensures NamesDistinct(HvAcsrB) {}
  lemma LvOverheadANamesDistinct() ensures NamesDistinct(LvOverheadA) {}
  lemma LvOverheadBNamesDistinct() ensures NamesDistinct(LvOverheadB) {}
  lemma LvUndergroundANamesDistinct() ensures NamesDistinct(LvUndergroundA) {}
  lemma LvUndergroundBNamesDistinct() ensures NamesDistinct(LvUndergroundB) {}
  lemma LvOtherNamesDistinct() ensures NamesDistinct(LvOther) {}
  lemma HvAaacAHvAaacBNamesDisjoint() ensures NamesDisjoint(HvAaacA, HvAaacB) {}
  lemma HvAaacAHvAacNamesDisjoint() ensures NamesDisjoint(HvAaacA, HvAac) {}
  lemma HvAaacBHvAacNamesDisjoint() ensures NamesDisjoint(HvAaacB, HvAac) {}
  lemma HvAaacAHvAcsrANamesDisjoint() ensures NamesDisjoint(HvAaacA, HvAcsrA) {}
  lemma HvAaacBHvAcsrANamesDisjoint() ensures NamesDisjoint(HvAaacB, HvAcsrA) {}
  lemma HvAacHvAcsrANamesDisjoint() ensures NamesDisjoint(HvAac, HvAcsrA) {}
  lemma HvAaacAHvAcsrBNamesDisjoint() ensures NamesDisjoint(HvAaacA, HvAcsrB) {}
  lemma HvAaacBHvAcsrBNamesDisjoint() ensures NamesDisjoint(HvAaacB, HvAcsrB) {}
  lemma HvAacHvAcsrBNamesDisjoint() ensures NamesDisjoint(HvAac, HvAcsrB) {}
  lemma HvAcsrAHvAcsrBNamesDisjoint() ensures NamesDisjoint(HvAcsrA, HvAcsrB) {}
  lemma HvAaacALvOverheadANamesDisjoint() ensures NamesDisjoint(HvAaacA, LvOverheadA) {}
  lemma HvAaacBLvOverheadANamesDisjoint() ensures NamesDisjoint(HvAaacB, LvOverheadA) {}
  lemma HvAacLvOverheadANamesDisjoint() ensures NamesDisjoint(HvAac, LvOverheadA) {}
  lemma HvAcsrALvOverheadANamesDisjoint() ensures NamesDisjoint(HvAcsrA, LvOverheadA) {}
  lemma HvAcsrBLvOverheadANamesDisjoint() ensures NamesDisjoint(HvAcsrB, LvOverheadA) {}
  lemma HvAaacALvOverheadBNamesDisjoint() ensures NamesDisjoint(HvAaacA, LvOverheadB) {}
  lemma HvAaacBLvOverheadBNamesDisjoint() ensures NamesDisjoint(HvAaacB, LvOverheadB) {}
  lemma HvAacLvOverheadBNamesDisjoint() ensures NamesDisjoint(HvAac, LvOverheadB) {}
  lemma HvAcsrALvOverheadBNamesDisjoint() ensures NamesDisjoint(HvAcsrA, LvOverheadB) {}
  lemma HvAcsrBLvOverheadBNamesDisjoint() ensures NamesDisjoint(HvAcsrB, LvOverheadB) {}
  lemma LvOverheadALvOverheadBNamesDisjoint() ensures NamesDisjoint(LvOverheadA, LvOverheadB) {}
  lemma HvAaacALvUndergroundANamesDisjoint() ensures NamesDisjoint(HvAaacA, LvUndergroundA) {}
  lemma HvAaacBLvUndergroundANamesDisjoint() ensures NamesDisjoint(HvAaacB, LvUndergroundA) {}
  lemma HvAacLvUndergroundANamesDisjoint() ensures NamesDisjoint(HvAac, LvUndergroundA) {}
  lemma HvAcsrALvUndergroundANamesDisjoint() ensures NamesDisjoint(HvAcsrA, LvUndergroundA) {}
  lemma HvAcsrBLvUndergroundANamesDisjoint() ensures NamesDisjoint(HvAcsrB, LvUndergroundA) {}
  lemma LvOverheadALvUndergroundANamesDisjoint() ensures NamesDisjoint(LvOverheadA, LvUndergroundA) {}
  lemma LvOverheadBLvUndergroundANamesDisjoint() ensures NamesDisjoint(LvOverheadB, LvUndergroundA) {}
  lemma HvAaacALvUndergroundBNamesDisjoint() ensures NamesDisjoint(HvAaacA, LvUndergroundB) {}
  lemma HvAaacBLvUndergroundBNamesDisjoint() ensures NamesDisjoint(HvAaacB, LvUndergroundB) {}
  lemma HvAacLvUndergroundBNamesDisjoint() ensures NamesDisjoint(HvAac, LvUndergroundB) {}
  lemma HvAcsrALvUndergroundBNamesDisjoint() ensures NamesDisjoint(HvAcsrA, LvUndergroundB) {}
  lemma HvAcsrBLvUndergroundBNamesDisjoint() ensures NamesDisjoint(HvAcsrB, LvUndergroundB) {}
  lemma LvOverheadALvUndergroundBNamesDisjoint() ensures NamesDisjoint(LvOverheadA, LvUndergroundB) {}
  lemma LvOverheadBLvUndergroundBNamesDisjoint() ensures NamesDisjoint(LvOverheadB, LvUndergroundB) {}
  lemma LvUndergroundALvUndergroundBNamesDisjoint() ensures NamesDisjoint(LvUndergroundA, LvUndergroundB) {}
  lemma HvAaacALvOtherNamesDisjoint() ensures NamesDisjoint(HvAaacA, LvOther) {}
  lemma HvAaacBLvOtherNamesDisjoint() ensures NamesDisjoint(HvAaacB, LvOther) {}
  lemma HvAacLvOtherNamesDisjoint() ensures NamesDisjoint(HvAac, LvOther) {}
  lemma HvAcsrALvOtherNamesDisjoint() ensures NamesDisjoint(HvAcsrA, LvOther) {}
  lemma HvAcsrBLvOtherNamesDisjoint() ensures NamesDisjoint(HvAcsrB, LvOther) {}
  lemma LvOverheadALvOtherNamesDisjoint() ensures NamesDisjoint(LvOverheadA, LvOther) {}
  lemma LvOverheadBLvOtherNamesDisjoint() ensures NamesDisjoint(LvOverheadB, LvOther) {}
  lemma LvUndergroundALvOtherNamesDisjoint() ensures NamesDisjoint(LvUndergroundA, LvOther) {}
  lemma LvUndergroundBLvOtherNamesDisjoint() ensures NamesDisjoint(LvUndergroundB, LvOther) {}

  lemma HighVoltageNamesDistinct()
    ensures NamesDistinct(HighVoltage)
  {
    HvAaacANamesDistinct();
    HvAaacBNamesDistinct();
    HvAacNamesDistinct();
    HvAcsrANamesDistinct();
    HvAcsrBNamesDistinct();
    HvAaacAHvAaacBNamesDisjoint();
    DistinctAppend(HvAaacA, HvAaacB);
    HvAaacAHvAacNamesDisjoint();
    HvAaacBHvAacNamesDisjoint();
    DisjointAppend(HvAaacA, HvAaacB, HvAac);
    DistinctAppend(HvAaacA + HvAaacB, HvAac);
    HvAaacAHvAcsrANamesDisjoint();
    HvAaacBHvAcsrANamesDisjoint();
    HvAacHvAcsrANamesDisjoint();
    DisjointAppend(HvAaacA, HvAaacB, HvAcsrA);
    DisjointAppend(HvAaacA + HvAaacB, HvAac, HvAcsrA);
    DistinctAppend(HvAaacA + HvAaacB + HvAac, HvAcsrA);
    HvAaacAHvAcsrBNamesDisjoint();
    HvAaacBHvAcsrBNamesDisjoint();
    HvAacHvAcsrBNamesDisjoint();
    HvAcsrAHvAcsrBNamesDisjoint();
    DisjointAppend(HvAaacA, HvAaacB, HvAcsrB);
    DisjointAppend(HvAaacA + HvAaacB, HvAac, HvAcsrB);
    DisjointAppend(HvAaacA + HvAaacB + HvAac, HvAcsrA, HvAcsrB);
    DistinctAppend(HvAaacA + HvAaacB + HvAac + HvAcsrA, HvAcsrB);
  }

  lemma LowVoltageNamesDistinct()
    ensures NamesDistinct(LowVoltage)
  {
    LvOverheadANamesDistinct();
    LvOverheadBNamesDistinct();
    LvUndergroundANamesDistinct();
    LvUndergroundBNamesDistinct();
    LvOtherNamesDistinct();
    LvOverheadALvOverheadBNamesDisjoint();
    DistinctAppend(LvOverheadA, LvOverheadB);
    LvOverheadALvUndergroundANamesDisjoint();
    LvOverheadBLvUndergroundANamesDisjoint();
    DisjointAppend(LvOverheadA, LvOverheadB, LvUndergroundA);
    DistinctAppend(LvOverheadA + LvOverheadB, LvUndergroundA);
    LvOverheadALvUndergroundBNamesDisjoint();
    LvOverheadBLvUndergroundBNamesDisjoint();
    LvUndergroundALvUndergroundBNamesDisjoint();
    DisjointAppend(LvOverheadA, LvOverheadB, LvUndergroundB);
    DisjointAppend(LvOverheadA + LvOverheadB, LvUndergroundA, LvUndergroundB);
    DistinctAppend(LvOverheadA + LvOverheadB + LvUndergroundA, LvUndergroundB);
    LvOverheadALvOtherNamesDisjoint();
    LvOverheadBLvOtherNamesDisjoint();
    LvUndergroundALvOtherNamesDisjoint();
    LvUndergroundBLvOtherNamesDisjoint();
    DisjointAppend(LvOverheadA, LvOverheadB, LvOther);
    DisjointAppend(LvOverheadA + LvOverheadB, LvUndergroundA, LvOther);
    DisjointAppend(LvOverheadA + LvOverheadB + LvUndergroundA, LvUndergroundB, LvOther);
    DistinctAppend(LvOverheadA + LvOverheadB + LvUndergroundA + LvUndergroundB, LvOther);
  }

  lemma HvAaacALowVoltageNamesDisjoint()
    ensures NamesDisjoint(HvAaacA, LowVoltage)
  {
    HvAaacALvOverheadANamesDisjoint();
    HvAaacALvOverheadBNamesDisjoint();
    HvAaacALvUndergroundANamesDisjoint();
    HvAaacALvUndergroundBNamesDisjoint();
    HvAaacALvOtherNamesDisjoint();
    DisjointAppendRight(HvAaacA, LvOverheadA, LvOverheadB);
    DisjointAppendRight(HvAaacA, LvOverheadA + LvOverheadB, LvUndergroundA);
    DisjointAppendRight(HvAaacA, LvOverheadA + LvOverheadB + LvUndergroundA, LvUndergroundB);
    DisjointAppendRight(HvAaacA, LvOverheadA + LvOverheadB + LvUndergroundA + LvUndergroundB, LvOther);
  }

  lemma HvAaacBLowVoltageNamesDisjoint()
    ensures NamesDisjoint(HvAaacB, LowVoltage)
  {
    HvAaacBLvOverheadANamesDisjoint();
    HvAaacBLvOverheadBNamesDisjoint();
    HvAaacBLvUndergroundANamesDisjoint();
    HvAaacBLvUndergroundBNamesDisjoint();
    HvAaacBLvOtherNamesDisjoint();
    DisjointAppendRight(HvAaacB, LvOverheadA, LvOverheadB);
    DisjointAppendRight(HvAaacB, LvOverheadA + LvOverheadB, LvUndergroundA);
    DisjointAppendRight(HvAaacB, LvOverheadA + LvOverheadB + LvUndergroundA, LvUndergroundB);
    DisjointAppendRight(HvAaacB, LvOverheadA + LvOverheadB + LvUndergroundA + LvUndergroundB, LvOther);
  }

  lemma HvAacLowVoltageNamesDisjoint()
    ensures NamesDisjoint(HvAac, LowVoltage)
  {
    HvAacLvOverheadANamesDisjoint();
    HvAacLvOverheadBNamesDisjoint();
    HvAacLvUndergroundANamesDisjoint();
    HvAacLvUndergroundBNamesDisjoint();
    HvAacLvOtherNamesDisjoint();
    DisjointAppendRight(HvAac, LvOverheadA, LvOverheadB);
    DisjointAppendRight(HvAac, LvOverheadA + LvOverheadB, LvUndergroundA);
    DisjointAppendRight(HvAac, LvOverheadA + LvOverheadB + LvUndergroundA, LvUndergroundB);
    DisjointAppendRight(HvAac, LvOverheadA + LvOverheadB + LvUndergroundA + LvUndergroundB, LvOther);
  }

  lemma HvAcsrALowVoltageNamesDisjoint()
    ensures NamesDisjoint(HvAcsrA, LowVoltage)
  {
    HvAcsrALvOverheadANamesDisjoint();
    HvAcsrALvOverheadBNamesDisjoint();
    HvAcsrALvUndergroundANamesDisjoint();
    HvAcsrALvUndergroundBNamesDisjoint();
    HvAcsrALvOtherNamesDisjoint();
    DisjointAppendRight(HvAcsrA, LvOverheadA, LvOverheadB);
    DisjointAppendRight(HvAcsrA, LvOverheadA + LvOverheadB, LvUndergroundA);
    DisjointAppendRight(HvAcsrA, LvOverheadA + LvOverheadB + LvUndergroundA, LvUndergroundB);
    DisjointAppendRight(HvAcsrA, LvOverheadA + LvOverheadB + LvUndergroundA + LvUndergroundB, LvOther);
  }

  lemma HvAcsrBLowVoltageNamesDisjoint()
    ensures NamesDisjoint(HvAcsrB, LowVoltage)
  {
    HvAcsrBLvOverheadANamesDisjoint();
    HvAcsrBLvOverheadBNamesDisjoint();
    HvAcsrBLvUndergroundANamesDisjoint();
    HvAcsrBLvUndergroundBNamesDisjoint();
    HvAcsrBLvOtherNamesDisjoint();
    DisjointAppendRight(HvAcsrB, LvOverheadA, LvOverheadB);
    DisjointAppendRight(HvAcsrB, LvOverheadA + LvOverheadB, LvUndergroundA);
    DisjointAppendRight(HvAcsrB, LvOverheadA + LvOverheadB + LvUndergroundA, LvUndergroundB);
    DisjointAppendRight(HvAcsrB, LvOverheadA + LvOverheadB + LvUndergroundA + LvUndergroundB, LvOther);
  }

  lemma HighLowNamesDisjoint()
    ensures NamesDisjoint(HighVoltage, LowVoltage)
  {
    HvAaacALowVoltageNamesDisjoint();
    HvAaacBLowVoltageNamesDisjoint();
    HvAacLowVoltageNamesDisjoint();
    HvAcsrALowVoltageNamesDisjoint();
    HvAcsrBLowVoltageNamesDisjoint();
    DisjointAppend(HvAaacA, HvAaacB, LowVoltage);
    DisjointAppend(HvAaacA + HvAaacB, HvAac, LowVoltage);
    DisjointAppend(HvAaacA + HvAaacB + HvAac, HvAcsrA, LowVoltage);
    DisjointAppend(HvAaacA + HvAaacB + HvAac + HvAcsrA, HvAcsrB, LowVoltage);
  }

  /** The names in the table are pairwise distinct, so a name identifies an
      entry. */
  lemma CatalogueNamesDistinct()
    ensures forall i, j | 0 <= i < |Catalogue| && 0 <= j < |Catalogue| && i != j ::
      Catalogue[i].name != Catalogue[j].name
  {
    HighVoltageNamesDistinct();
    LowVoltageNamesDistinct();
    HighLowNamesDisjoint();
    DistinctAppend(HighVoltage, LowVoltage);
    assert NamesDistinct(Catalogue);
  }

  /** Where the ratings that matter to the sorted order sit in the table: every
      rating lies between the Rosella rating (94.03 A, entries 27-29, lines
      49-51) and that of `AAAC:19/4.75` (747 A, entry 47, line 69), which no
      other entry shares; 105 A is shared by entries 42, 49 and 56 (lines 64,
      71 and 78), and 165.38 A by the three Flourine entries 0-2 (lines 22-24). */
  lemma CatalogueRatings()
    ensures forall i | 0 <= i < |Catalogue| ::
      && 94.03 <= Catalogue[i].normAmps <= 747.0
      && (Catalogue[i].normAmps == 94.03 <==> 27 <= i < 30)
      && (Catalogue[i].normAmps == 747.0 <==> i == 47)
      && (Catalogue[i].normAmps == 105.0 <==> i == 42 || i == 49 || i == 56)
      && (Catalogue[i].normAmps == 165.38 <==> i < 3)
  {
    HighVoltageRatings();
    LowVoltageRatings();
  }

  // The same facts for each half of the table, and then run by run, with
  // indices relative to the half or the run.
  lemma HighVoltageRatings()
    ensures |HighVoltage| == 42
    ensures forall i | 0 <= i < |HighVoltage| ::
      && 94.03 <= HighVoltage[i].normAmps < 747.0 && HighVoltage[i].normAmps != 105.0
      && (HighVoltage[i].normAmps == 94.03 <==> 27 <= i < 30)
      && (HighVoltage[i].normAmps == 165.38 <==> i < 3)
  {
    HvAaacARatings();
    HvAaacBRatings();
    HvAacRatings();
    HvAcsrARatings();
    HvAcsrBRatings();
  }
  lemma LowVoltageRatings()
    ensures forall i | 0 <= i < |LowVoltage| ::
      && 94.03 < LowVoltage[i].normAmps <= 747.0 && LowVoltage[i].normAmps != 165.38
      && (LowVoltage[i].normAmps == 747.0 <==> i == 5)
      && (LowVoltage[i].normAmps == 105.0 <==> i == 0 || i == 7 || i == 14)
  {
    LvOverheadARatings();
    LvOverheadBRatings();
    LvUndergroundARatings();
    LvUndergroundBRatings();
    LvOtherRatings();
  }

  lemma HvAaacARatings()
    ensures forall i | 0 <= i < |HvAaacA| ::
      && 94.03 < HvAaacA[i].normAmps < 747.0 && HvAaacA[i].normAmps != 105.0
      && (HvAaacA[i].normAmps == 165.38 <==> i < 3)
  {}
  lemma HvAaacBRatings()
    ensures forall i | 0 <= i < |HvAaacB| ::
      && 94.03 < HvAaacB[i].normAmps < 747.0 && HvAaacB[i].normAmps != 105.0 && HvAaacB[i].normAmps != 165.38
  {}
  lemma HvAacRatings()
    ensures forall i | 0 <= i < |HvAac| ::
      && 94.03 < HvAac[i].normAmps < 747.0 && HvAac[i].normAmps != 105.0 && HvAac[i].normAmps != 165.38
  {}
  lemma HvAcsrARatings()
    ensures forall i | 0 <= i < |HvAcsrA| ::
      && 94.03 <= HvAcsrA[i].normAmps < 747.0 && HvAcsrA[i].normAmps != 105.0 && HvAcsrA[i].normAmps != 165.38
      && (HvAcsrA[i].normAmps == 94.03 <==> 3 <= i < 6)
  {}
  lemma HvAcsrBRatings()
    ensures forall i | 0 <= i < |HvAcsrB| ::
      && 94.03 < HvAcsrB[i].normAmps < 747.0 && HvAcsrB[i].normAmps != 105.0 && HvAcsrB[i].normAmps != 165.38
  {}
  lemma LvOverheadARatings()
    ensures forall i | 0 <= i < |LvOverheadA| ::
      && 94.03 < LvOverheadA[i].normAmps <= 747.0 && LvOverheadA[i].normAmps != 165.38
      && (LvOverheadA[i].normAmps == 747.0 <==> i == 5)
      && (LvOverheadA[i].normAmps == 105.0 <==> i == 0)
  {}
  lemma LvOverheadBRatings()
    ensures forall i | 0 <= i < |LvOverheadB| ::
      && 94.03 < LvOverheadB[i].normAmps < 747.0 && LvOverheadB[i].normAmps != 165.38
      && (LvOverheadB[i].normAmps == 105.0 <==> i == 0)
  {}
  lemma LvUndergroundARatings()
    ensures forall i | 0 <= i < |LvUndergroundA| ::
      && 94.03 < LvUndergroundA[i].normAmps < 747.0 && LvUndergroundA[i].normAmps != 165.38
      && (LvUndergroundA[i].normAmps == 105.0 <==> i == 0)
  {}
  lemma LvUndergroundBRatings()
    ensures forall i | 0 <= i < |LvUndergroundB| ::
      && 94.03 < LvUndergroundB[i].normAmps < 747.0 && LvUndergroundB[i].normAmps != 105.0 && LvUndergroundB[i].normAmps != 165.38
  {}
  lemma LvOtherRatings()
    ensures forall i | 0 <= i < |LvOther| ::
      && 94.03 < LvOther[i].normAmps < 747.0 && LvOther[i].normAmps != 105.0 && LvOther[i].normAmps != 165.38
  {}

  /** The names of the entries that the sorted order singles out. */
  lemma CatalogueNamedEntries()
    ensures Catalogue[27].name == "Rosella_4/3/0.093_ACSR/GZ_3W"
    ensures Catalogue[28].name == "Rosella_4/3/0.093_ACSR/GZ_2W"
    ensures Catalogue[29].name == "Rosella_4/3/0.093_ACSR/GZ_1W"
    ensures Catalogue[42].name == "2_Core_Al_LV_XLPE_ABC_OH_2W"
    ensures Catalogue[47].name == "AAAC:19/4.75"
    ensures Catalogue[49].name == "ABC2w:25ABC"
    ensures Catalogue[56].name == "Cu_U/G:16C/4c"
  {
    assert |HighVoltage| == 42;
    assert HighVoltage[27..30] == HvAcsrA[3..6];
    assert LowVoltage[0] == LvOverheadA[0] && LowVoltage[5] == LvOverheadA[5];
    assert LowVoltage[7] == LvOverheadB[0] && LowVoltage[14] == LvUndergroundA[0];
  }
}
