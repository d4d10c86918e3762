/**
 * How the live classifier of src/utils/thingSpeakDataMapper.ts relates to
 * the generic band rule of src/utils/mockData.ts applied to the bands each
 * live record declares in its `ranges` field.
 */
module Agreement {
  import opened Types
  import opened ThingSpeakDataMapper
  import opened MockData

  /** Without an alert, temperature and humidity are classified exactly by their declared bands. */
  lemma UnflaggedFollowsDeclaredBands(t: real, h: real)
    ensures TemperatureStatus(t, false) == BandStatus(t, TemperatureRanges)
    ensures HumidityStatus(h, false) == BandStatus(h, HumidityRanges)
  {
  }

  /**
   * Unflagged pressure agrees with its declared bands (normal 990-1020,
   * warning 980-989) except on [950, 980), (989, 990) and (1020, 1050],
   * where the classifier says normal and the bands say critical.
   */
  lemma PressureVersusDeclaredBands(p: real)
    ensures PressureStatus(p, false) == BandStatus(p, PressureRanges)
        <==> !(950.0 <= p < 980.0 || 989.0 < p < 990.0 || 1020.0 < p <= 1050.0)
    ensures 1020.0 < p <= 1050.0 ==> PressureStatus(p, false) == Normal && BandStatus(p, PressureRanges) == Critical
  {
  }

  /**
   * Unflagged light agrees with its declared bands (normal 100-200, warning
   * 1-99) except for negative readings (normal by the classifier) and for
   * (0, 1) and (99, 100) (warnings by the classifier), all critical by the bands.
   */
  lemma LightVersusDeclaredBands(l: real)
    ensures LightStatus(l, false) == BandStatus(l, LightRanges)
        <==> !(l < 0.0 || 0.0 < l < 1.0 || 99.0 < l < 100.0)
    ensures l < 0.0 ==> LightStatus(l, false) == Normal
  {
  }
}
