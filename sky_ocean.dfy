/**
  The time-of-day rule of the sky (`initSky` and its `updateTime` in
  SkyOcean.ts) and the clock of the water surface (`animate_SkyOcean`).
*/
module SkyOcean {
  import opened Gaussian

  /** Hours on the clock, with the minutes as a fraction: `getHours() + getMinutes() * 5 / 300`. */
  function TimeOfDay(hours: int, minutes: int): real {
    hours as real + (minutes as real * 5.0) / 300.0
  }

  /** The minutes enter as sixtieths of an hour, and a wall-clock reading lands in `[0, 24)`. */
  lemma TimeOfDayFacts(hours: int, minutes: int)
    ensures TimeOfDay(hours, minutes) == hours as real + minutes as real / 60.0
    ensures 0 <= hours <= 23 && 0 <= minutes <= 59 ==> 0.0 <= TimeOfDay(hours, minutes) < 24.0
  {
    var m := minutes as real;
    assert (m * 5.0) / 300.0 == m / 60.0;
  }

  /** The branch `updateTime` takes for a time of day. */
  predicate IsDaytime(t: real) {
    6.0 <= t < 18.0
  }

  /** Sun elevation in degrees: rising 15 per hour through the day, and `-15 * t` at night. */
  function SunElevation(t: real): real {
    if IsDaytime(t) then t * 15.0 - 180.0 else -t * 15.0
  }

  /**
    In the day the sun climbs from -90 towards 90 and stands at 0 exactly at
    noon, above the horizon exactly in the afternoon.
  */
  lemma DaytimeElevation(t: real)
    requires IsDaytime(t)
    ensures -90.0 <= SunElevation(t) < 90.0
    ensures SunElevation(t) == 0.0 <==> t == 12.0
    ensures 0.0 < SunElevation(t) <==> 12.0 < t
  {
  }

  /**
    At night (within a wall-clock day) the sun is never above the horizon; its
    elevation is 0 only at midnight.
  */
  lemma NightElevation(t: real)
    requires 0.0 <= t < 24.0 && !IsDaytime(t)
    ensures SunElevation(t) <= 0.0
    ensures SunElevation(t) == 0.0 <==> t == 0.0
  {
  }

  /** The elevation the sun has at every wall-clock minute of the day. */
  lemma ClockElevation(hours: int, minutes: int)
    requires 0 <= hours <= 23 && 0 <= minutes <= 59
    ensures var e := SunElevation(TimeOfDay(hours, minutes));
            -360.0 < e < 90.0 && (hours == 12 && minutes == 0 <==> e == 0.0 && 6 <= hours)
  {
    TimeOfDayFacts(hours, minutes);
    var t := TimeOfDay(hours, minutes);
    if IsDaytime(t) {
      DaytimeElevation(t);
      if t == 12.0 {
        assert minutes as real / 60.0 == 12.0 - hours as real;
        assert hours == 12;
      }
    } else {
      NightElevation(t);
    }
  }

  /** What one `animate_SkyOcean` call does to the water clock. */
  function WaterTick(t: real): real {
    t + 1.0 / 60.0
  }

  /** The water clock after `n` frames, one tick at a time. */
  function WaterAfter(t: real, n: nat): real {
    if n == 0 then t else WaterTick(WaterAfter(t, n - 1))
  }

  /** However long the frames took, `n` frames advance the water clock by exactly `n / 60`. */
  lemma {:induction false} WaterAfterFrames(t: real, n: nat)
    ensures WaterAfter(t, n) == t + n as real / 60.0
  {
    if n > 0 {
      WaterAfterFrames(t, n - 1);
      assert (n - 1) as real / 60.0 + 1.0 / 60.0 == n as real / 60.0;
    }
  }

  /**
    The `parameters` record of the sky, the two sky uniforms `updateTime`
    copies into, and the water's `time` uniform.
  */
  class Scene {
    var time: real
    var elevation: real
    var azimuth: real
    var turbidity: real
    var rayleigh: real
    var skyTurbidity: real
    var skyRayleigh: real
    var waterTime: real

    /**
      `initSky` at wall-clock `hours:minutes`, with the draws behind the two
      `normalRandom` calls; `waterStart` is the water material's initial time.
    */
    constructor(hours: int, minutes: int, zTurbidity: real, zRayleigh: real, waterStart: real)
      ensures time == TimeOfDay(hours, minutes) && elevation == SunElevation(time) && azimuth == 0.0
      ensures turbidity == (if IsDaytime(time) then NormalRandom(5.0, 2.0, zTurbidity)
                            else NormalRandom(0.05, 0.02, zTurbidity))
      ensures rayleigh == (if IsDaytime(time) then NormalRandom(2.5, 1.0, zRayleigh)
                           else NormalRandom(0.005, 0.002, zRayleigh))
      ensures skyTurbidity == turbidity && skyRayleigh == rayleigh && waterTime == waterStart
    {
      time := 6.0;
      elevation := -90.0;
      azimuth := 0.0;
      turbidity := 10.0;
      rayleigh := 2.0;
      // The Sky material's own initial uniforms are overwritten by the first
      // `updateTime` below; they start here from the record's values.
      skyTurbidity := turbidity;
      skyRayleigh := rayleigh;
      waterTime := waterStart;
      new;
      UpdateTime(hours, minutes, zTurbidity, zRayleigh);
    }

    /**
      `updateTime` at wall-clock `hours:minutes`: only the time, the elevation,
      the turbidity and the Rayleigh coefficient change, and the last two are
      copied into the sky's uniforms.
    */
    method UpdateTime(hours: int, minutes: int, zTurbidity: real, zRayleigh: real)
      modifies this
      ensures time == TimeOfDay(hours, minutes) && elevation == SunElevation(time)
      ensures turbidity == (if IsDaytime(time) then NormalRandom(5.0, 2.0, zTurbidity)
                            else NormalRandom(0.05, 0.02, zTurbidity))
      ensures rayleigh == (if IsDaytime(time) then NormalRandom(2.5, 1.0, zRayleigh)
                           else NormalRandom(0.005, 0.002, zRayleigh))
      ensures skyTurbidity == turbidity && skyRayleigh == rayleigh
      ensures azimuth == old(azimuth) && waterTime == old(waterTime)
    {
      time := hours as real + (minutes as real * 5.0) / 300.0;
      if time >= 6.0 && time < 18.0 {
        elevation := time * 15.0 - 180.0;
        turbidity := NormalRandom(5.0, 2.0, zTurbidity);
        rayleigh := NormalRandom(2.5, 1.0, zRayleigh);
      } else {
        elevation := -time * 15.0;
        turbidity := NormalRandom(0.05, 0.02, zTurbidity);
        rayleigh := NormalRandom(0.005, 0.002, zRayleigh);
      }
      skyTurbidity := turbidity;
      skyRayleigh := rayleigh;
    }

    /** `animate_SkyOcean`: one tick of the water clock, and nothing else. */
    method AnimateWater()
      modifies this
      ensures waterTime == WaterTick(old(waterTime))
      ensures time == old(time) && elevation == old(elevation) && azimuth == old(azimuth)
      ensures turbidity == old(turbidity) && rayleigh == old(rayleigh)
      ensures skyTurbidity == old(skyTurbidity) && skyRayleigh == old(skyRayleigh)
    {
      waterTime := waterTime + 1.0 / 60.0;
    }
  }
}
