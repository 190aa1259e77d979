/** Frame-name handling in front of the Astropy transform of
    src/spacecoords/astropy.py: the alias table, the list of frames that take
    no observation time, the geocentric classification, and `convert`, which
    validates the two frame names, builds one keyword dictionary per frame and
    writes the transformed position and velocity into a copy of the states. */
module Astropy {
  import opened Text

  datatype Option<T> = None | Some(value: T)

  /** ASTROPY_FRAMES: accepted frame names (upper case) to Astropy class names.
      The source spells the six ecliptic keys as the class name followed by
      `.upper()`; HeliocentricNamesUpperCased, GeocentricNamesUpperCased and
      BarycentricNamesUpperCased show that the literals here are those values. */
  const Frames: map<string, string> := map[
    "TEME" := "TEME",
    "ITRS" := "ITRS",
    "ITRF" := "ITRS",
    "ICRS" := "ICRS",
    "ICRF" := "ICRS",
    "GCRS" := "GCRS",
    "GCRF" := "GCRS",
    "HCRS" := "HCRS",
    "HCRF" := "HCRS",
    "HELIOCENTRICMEANECLIPTIC" := "HeliocentricMeanEcliptic",
    "GEOCENTRICMEANECLIPTIC" := "GeocentricMeanEcliptic",
    "HELIOCENTRICTRUEECLIPTIC" := "HeliocentricTrueEcliptic",
    "GEOCENTRICTRUEECLIPTIC" := "GeocentricTrueEcliptic",
    "BARYCENTRICMEANECLIPTIC" := "BarycentricMeanEcliptic",
    "BARYCENTRICTRUEECLIPTIC" := "BarycentricTrueEcliptic",
    "SPICEJ2000" := "ICRS"
  ]

  /** ASTROPY_NOT_OBSTIME: the Astropy classes that take no observation time. */
  const NotObstime: seq<string> := [
    "ICRS",
    "BarycentricMeanEcliptic",
    "BarycentricTrueEcliptic"
  ]

  /** The keyword under which the observation time is passed to a frame. */
  const ObstimeKey: string := "obstime"

  // ---------------------------------------------------------------------------
  // Classification

  /** `not_geocentric`: the name, in any letter case, is ICRS, ICRF, HCRS or
      HCRF, or begins with "Heliocentric". */
  function NotGeocentric(frame: string): (r: bool)
    ensures r <==> (EqualsIgnoringCase(frame, "ICRS") || EqualsIgnoringCase(frame, "ICRF") ||
                    EqualsIgnoringCase(frame, "HCRS") || EqualsIgnoringCase(frame, "HCRF") ||
                    StartsWithIgnoringCase(frame, "Heliocentric"))
  {
    var name := Upper(frame);
    SameUpperIffEqualsIgnoringCase(frame, "ICRS");
    SameUpperIffEqualsIgnoringCase(frame, "ICRF");
    SameUpperIffEqualsIgnoringCase(frame, "HCRS");
    SameUpperIffEqualsIgnoringCase(frame, "HCRF");
    UpperPrefixIffStartsWithIgnoringCase(frame, "Heliocentric");
    assert Upper("ICRS") == "ICRS" && Upper("ICRF") == "ICRF";
    assert Upper("HCRS") == "HCRS" && Upper("HCRF") == "HCRF";
    name in ["ICRS", "ICRF", "HCRS", "HCRF"] || StartsWith(name, Upper("Heliocentric"))
  }

  /** `is_geocentric`: every name not recognised as non-geocentric. */
  function IsGeocentric(frame: string): (r: bool)
    ensures r <==> (!EqualsIgnoringCase(frame, "ICRS") && !EqualsIgnoringCase(frame, "ICRF") &&
                    !EqualsIgnoringCase(frame, "HCRS") && !EqualsIgnoringCase(frame, "HCRF") &&
                    !StartsWithIgnoringCase(frame, "Heliocentric"))
  {
    !NotGeocentric(frame)
  }

  /** The classification only sees the upper-case form of the name. */
  lemma ClassificationIgnoresCase(a: string, b: string)
    requires Upper(a) == Upper(b)
    ensures NotGeocentric(a) == NotGeocentric(b)
    ensures IsGeocentric(a) == IsGeocentric(b)
    ensures NotGeocentric(Upper(a)) == NotGeocentric(a)
  {
    UpperProperties(a);
  }

  /** Over the names of the alias table, exactly the ICRS/HCRS names and the two
      heliocentric ecliptics are non-geocentric. The classification looks at the
      name and not at the class it resolves to: SPICEJ2000, an alias of ICRS,
      and the barycentric ecliptics count as geocentric. */
  lemma GeocentricFrameNames()
    ensures forall k :: k in Frames ==> (NotGeocentric(k) <==> k in NonGeocentricFrameNames)
  {
    forall k | k in Frames
      ensures NotGeocentric(k) <==> k in NonGeocentricFrameNames
    {
      FrameNameClassification(k);
    }
  }

  /** The accepted names that `not_geocentric` recognises. */
  const NonGeocentricFrameNames: seq<string> := [
    "ICRS", "ICRF", "HCRS", "HCRF", "HELIOCENTRICMEANECLIPTIC", "HELIOCENTRICTRUEECLIPTIC"
  ]

  /** The classification of one accepted name. */
  lemma FrameNameClassification(k: string)
    requires k in Frames
    ensures NotGeocentric(k) <==> k in NonGeocentricFrameNames
  {
    FrameNameUpperCase(k);
    assert Upper("Heliocentric") == "HELIOCENTRIC";
    if k in NonGeocentricFrameNames {
      assert StartsWith("HELIOCENTRICMEANECLIPTIC", "HELIOCENTRIC");
      assert StartsWith("HELIOCENTRICTRUEECLIPTIC", "HELIOCENTRIC");
    } else {
      assert !StartsWith(k, "HELIOCENTRIC") by {
        if |k| >= 12 {
          assert k[0] != 'H' && k[..12][0] == k[0];
        }
      }
    }
  }

  /** SPICEJ2000 resolves to the same class as ICRS, yet only ICRS is reported
      as non-geocentric. */
  lemma SpiceJ2000IsGeocentric()
    ensures Resolve("SPICEJ2000") == Resolve("ICRS") == Some("ICRS")
    ensures IsGeocentric("SPICEJ2000") && !IsGeocentric("ICRS")
  {
    assert Upper("SPICEJ2000") == "SPICEJ2000";
    assert Upper("ICRS") == "ICRS";
    assert !StartsWithIgnoringCase("SPICEJ2000", "Heliocentric") by {
      assert UpperChar("SPICEJ2000"[0]) != UpperChar("Heliocentric"[0]);
    }
  }

  // ---------------------------------------------------------------------------
  // The alias table

  /** The six ecliptic keys are the upper-cased class names (one lemma per
      family of ecliptic frames keeps each proof small). */
  lemma HeliocentricNamesUpperCased()
    ensures Upper("HeliocentricMeanEcliptic") == "HELIOCENTRICMEANECLIPTIC"
    ensures Upper("HeliocentricTrueEcliptic") == "HELIOCENTRICTRUEECLIPTIC"
  {
  }

  lemma GeocentricNamesUpperCased()
    ensures Upper("GeocentricMeanEcliptic") == "GEOCENTRICMEANECLIPTIC"
    ensures Upper("GeocentricTrueEcliptic") == "GEOCENTRICTRUEECLIPTIC"
  {
  }

  lemma BarycentricNamesUpperCased()
    ensures Upper("BarycentricMeanEcliptic") == "BARYCENTRICMEANECLIPTIC"
    ensures Upper("BarycentricTrueEcliptic") == "BARYCENTRICTRUEECLIPTIC"
  {
  }

  /** The short names and class names of the table are upper case as written. */
  lemma ShortNamesUpperCased()
    ensures Upper("TEME") == "TEME" && Upper("ITRS") == "ITRS" && Upper("ITRF") == "ITRF"
    ensures Upper("ICRS") == "ICRS" && Upper("ICRF") == "ICRF"
    ensures Upper("GCRS") == "GCRS" && Upper("GCRF") == "GCRF"
    ensures Upper("HCRS") == "HCRS" && Upper("HCRF") == "HCRF"
    ensures Upper("SPICEJ2000") == "SPICEJ2000"
  {
  }

  /** The Astropy classes the table names. */
  const FrameClassNames: seq<string> := [
    "TEME", "ITRS", "ICRS", "GCRS", "HCRS",
    "HeliocentricMeanEcliptic", "GeocentricMeanEcliptic",
    "HeliocentricTrueEcliptic", "GeocentricTrueEcliptic",
    "BarycentricMeanEcliptic", "BarycentricTrueEcliptic"
  ]

  /** Every entry of the table maps to one of those classes. */
  lemma FrameClasses()
    ensures forall k :: k in Frames ==> Frames[k] in FrameClassNames
  {
  }

  /** Each class name, upper-cased, is an accepted name that maps back to it. */
  lemma ClassNameUpperCasedIsAccepted(cls: string)
    requires cls in FrameClassNames
    ensures Upper(cls) in Frames && Frames[Upper(cls)] == cls
  {
    if cls == "HeliocentricMeanEcliptic" || cls == "HeliocentricTrueEcliptic" {
      HeliocentricNamesUpperCased();
    } else if cls == "GeocentricMeanEcliptic" || cls == "GeocentricTrueEcliptic" {
      GeocentricNamesUpperCased();
    } else if cls == "BarycentricMeanEcliptic" || cls == "BarycentricTrueEcliptic" {
      BarycentricNamesUpperCased();
    } else {
      ShortNamesUpperCased();
    }
  }

  /** An accepted name is its own upper-case form. */
  lemma FrameNameUpperCase(k: string)
    requires k in Frames
    ensures Upper(k) == k
  {
    ShortNamesUpperCased();
    HeliocentricNamesUpperCased();
    GeocentricNamesUpperCased();
    BarycentricNamesUpperCased();
    UpperProperties(Frames[k]);
  }

  /** Every accepted name is already in upper case, so looking up `Upper(name)`
      can reach every entry. */
  lemma FrameNamesAreUpperCase()
    ensures forall k :: k in Frames ==> Upper(k) == k && IsUpperCase(k)
  {
    forall k | k in Frames
      ensures Upper(k) == k && IsUpperCase(k)
    {
      FrameNameUpperCase(k);
      UpperProperties(k);
    }
  }

  /** A class the table names is, upper-cased, an accepted name for itself. */
  lemma ClassNameResolvesToItself(cls: string)
    requires cls in Frames.Values
    ensures Upper(cls) in Frames && Frames[Upper(cls)] == cls
  {
    FrameClasses();
    var k :| k in Frames && Frames[k] == cls;
    ClassNameUpperCasedIsAccepted(cls);
  }

  /** Alias resolution is stable: the class an entry names is, upper-cased,
      itself an accepted name, and it resolves to that same class. */
  lemma AliasResolutionStable()
    ensures forall k :: k in Frames ==> Upper(Frames[k]) in Frames && Frames[Upper(Frames[k])] == Frames[k]
  {
    forall k | k in Frames
      ensures Upper(Frames[k]) in Frames && Frames[Upper(Frames[k])] == Frames[k]
    {
      ClassNameResolvesToItself(Frames[k]);
    }
  }

  /** `ASTROPY_FRAMES[name.upper()]`, or None when the name is not accepted. */
  function Resolve(name: string): (r: Option<string>)
    ensures r.Some? <==> Upper(name) in Frames
    ensures r.Some? ==> r.value in Frames.Values
    ensures r.Some? ==> Upper(r.value) in Frames && Frames[Upper(r.value)] == r.value
  {
    var key := Upper(name);
    AliasResolutionStable();
    if key in Frames then Some(Frames[key]) else None
  }

  /** A name resolves to the class of any key it equals when letter case is
      disregarded. */
  lemma ResolveByKey(name: string, k: string)
    requires k in Frames && EqualsIgnoringCase(name, k)
    ensures Resolve(name) == Some(Frames[k])
  {
    SameUpperIffEqualsIgnoringCase(name, k);
    FrameNameUpperCase(k);
  }

  /** Conversely, a name that resolves equals some key up to letter case, and
      resolves to that key's class; a name equal to no key does not resolve. */
  lemma ResolveFindsKey(name: string)
    ensures Resolve(name).Some? ==>
      exists k :: k in Frames && EqualsIgnoringCase(name, k) && Resolve(name).value == Frames[k]
    ensures (forall k :: k in Frames ==> !EqualsIgnoringCase(name, k)) ==> Resolve(name).None?
  {
    var key := Upper(name);
    SameUpperIffEqualsIgnoringCase(name, key);
    UpperProperties(name);
    if key in Frames {
      FrameNameUpperCase(key);
      assert EqualsIgnoringCase(name, key);
    }
  }

  // ---------------------------------------------------------------------------
  // Keyword dictionaries

  /** A frame class needs the observation time unless it is listed in
      ASTROPY_NOT_OBSTIME. */
  predicate TimeDependent(cls: string)
  {
    cls !in NotObstime
  }

  /** Among the accepted names, exactly ICRS and its aliases and the two
      barycentric ecliptics resolve to a class that takes no observation time. */
  lemma ObstimeFreeFrameNames()
    ensures forall k :: k in Frames ==>
      (!TimeDependent(Frames[k]) <==> k in ["ICRS", "ICRF", "SPICEJ2000",
                                            "BARYCENTRICMEANECLIPTIC", "BARYCENTRICTRUEECLIPTIC"])
    ensures forall cls :: cls in NotObstime ==> cls in Frames.Values
  {
    assert Frames["ICRS"] == "ICRS";
    assert Frames["BARYCENTRICMEANECLIPTIC"] == "BarycentricMeanEcliptic";
    assert Frames["BARYCENTRICTRUEECLIPTIC"] == "BarycentricTrueEcliptic";
  }

  /** For any name a caller passes, the class it resolves to takes an
      observation time unless the name is, ignoring letter case, ICRS, ICRF,
      SPICEJ2000 or one of the two barycentric ecliptics. */
  lemma ObstimeByName(name: string)
    requires Resolve(name).Some?
    ensures !TimeDependent(Resolve(name).value) <==>
      Upper(name) in ["ICRS", "ICRF", "SPICEJ2000", "BARYCENTRICMEANECLIPTIC", "BARYCENTRICTRUEECLIPTIC"]
  {
    ObstimeFreeFrameNames();
  }

  /** The keyword dictionary handed to frame class `cls`: a copy of the
      caller's keywords, with `obstime` set to `t` (replacing any value the
      caller gave) exactly when the class is time dependent. */
  function Keywords<V>(frameKwargs: map<string, V>, cls: string, t: V): (kw: map<string, V>)
    ensures kw.Keys == if TimeDependent(cls) then frameKwargs.Keys + {ObstimeKey} else frameKwargs.Keys
    ensures TimeDependent(cls) ==> kw[ObstimeKey] == t
    ensures forall k :: k in frameKwargs && (k != ObstimeKey || !TimeDependent(cls)) ==> kw[k] == frameKwargs[k]
  {
    if TimeDependent(cls) then frameKwargs[ObstimeKey := t] else frameKwargs
  }

  /** Builds the keyword dictionary step by step, as `convert` does. */
  method FrameKeywords<V>(frameKwargs: map<string, V>, cls: string, t: V) returns (kw: map<string, V>)
    ensures kw == Keywords(frameKwargs, cls, t)
  {
    kw := map[];
    kw := kw + frameKwargs;
    if cls !in NotObstime {
      kw := kw[ObstimeKey := t];
    }
  }

  // ---------------------------------------------------------------------------
  // Dispatch in `convert`

  /** An Astropy frame class with the keywords it is instantiated with. */
  datatype FrameSpec<V> = FrameSpec(cls: string, kw: map<string, V>)

  /** What `convert` does for a pair of frame names. */
  datatype Plan<V> =
    | Unchanged
    | UnknownInFrame(inName: string)
    | UnknownOutFrame(outName: string)
    | Transform(source: FrameSpec<V>, target: FrameSpec<V>)

  /** The frame specification built for an accepted name. */
  function SpecFor<V>(name: string, frameKwargs: map<string, V>, t: V): (s: FrameSpec<V>)
    requires Resolve(name).Some?
    ensures s.cls == Resolve(name).value
    ensures s.cls in Frames.Values && Resolve(s.cls) == Some(s.cls)
    ensures s.kw == Keywords(frameKwargs, s.cls, t)
  {
    var cls := Resolve(name).value;
    FrameSpec(cls, Keywords(frameKwargs, cls, t))
  }

  /** The decision `convert` takes before any numbers are touched. */
  function Dispatch<V>(t: V, inFrame: string, outFrame: string, frameKwargs: map<string, V>): (p: Plan<V>)
    ensures p.Unchanged? <==> Upper(inFrame) == Upper(outFrame)
    ensures Upper(inFrame) != Upper(outFrame) && Resolve(inFrame).None? ==> p == UnknownInFrame(Upper(inFrame))
    ensures p.UnknownInFrame? <==> Upper(inFrame) != Upper(outFrame) && Resolve(inFrame).None?
    ensures p.UnknownOutFrame? <==>
      Upper(inFrame) != Upper(outFrame) && Resolve(inFrame).Some? && Resolve(outFrame).None?
    ensures p.UnknownOutFrame? ==> p.outName == Upper(outFrame)
    ensures p.Transform? <==>
      Upper(inFrame) != Upper(outFrame) && Resolve(inFrame).Some? && Resolve(outFrame).Some?
    ensures p.Transform? ==>
      p.source.cls == Resolve(inFrame).value && p.target.cls == Resolve(outFrame).value &&
      p.source.kw == Keywords(frameKwargs, p.source.cls, t) &&
      p.target.kw == Keywords(frameKwargs, p.target.cls, t)
  {
    var inName := Upper(inFrame);
    var outName := Upper(outFrame);
    if inName == outName then Unchanged
    else if inName !in Frames then UnknownInFrame(inName)
    else if outName !in Frames then UnknownOutFrame(outName)
    else Transform(SpecFor(inFrame, frameKwargs, t), SpecFor(outFrame, frameKwargs, t))
  }

  /** Two names that differ only in letter case give back an unchanged copy,
      whether or not the name is accepted. */
  lemma SameFrameIsUnchanged<V>(t: V, inFrame: string, outFrame: string, frameKwargs: map<string, V>)
    requires EqualsIgnoringCase(inFrame, outFrame)
    ensures Dispatch(t, inFrame, outFrame, frameKwargs) == Unchanged
  {
    SameUpperIffEqualsIgnoringCase(inFrame, outFrame);
  }

  /** Both names accepted and different: the transform goes between the
      resolved classes, and swapping the names swaps the two specifications. */
  lemma TransformBetweenAcceptedNames<V>(t: V, inFrame: string, outFrame: string, frameKwargs: map<string, V>)
    requires !EqualsIgnoringCase(inFrame, outFrame)
    requires Upper(inFrame) in Frames && Upper(outFrame) in Frames
    ensures Dispatch(t, inFrame, outFrame, frameKwargs).Transform?
    ensures Dispatch(t, outFrame, inFrame, frameKwargs) ==
      Transform(Dispatch(t, inFrame, outFrame, frameKwargs).target,
                Dispatch(t, inFrame, outFrame, frameKwargs).source)
  {
    SameUpperIffEqualsIgnoringCase(inFrame, outFrame);
  }

  // ---------------------------------------------------------------------------
  // States and the Astropy transform

  /** A dense matrix as a sequence of rows. */
  type Matrix = seq<seq<real>>

  datatype Cartesian = Cartesian(x: real, y: real, z: real)

  /** Position (m) and velocity (m/s) of one transformed column. */
  datatype StateVector = StateVector(position: Cartesian, velocity: Cartesian)

  /** The Astropy step (`_convert_to_astropy` followed by `transform_to`): given
      the input states, the source and target frame specifications and a column
      index, the transformed state of that column. */
  type AstropyTransform<!V> = (Matrix, FrameSpec<V>, FrameSpec<V>, nat) -> StateVector

  function Coordinate(c: Cartesian, axis: nat): real
    requires axis < 3
  {
    if axis == 0 then c.x else if axis == 1 then c.y else c.z
  }

  /** `out_states.cartesian.xyz`: three rows of `n` transformed positions. */
  function PositionRows<V>(f: AstropyTransform<V>, states: Matrix, source: FrameSpec<V>, target: FrameSpec<V>, n: nat): (m: Matrix)
    ensures |m| == 3 && forall r :: 0 <= r < 3 ==> |m[r]| == n
  {
    seq(3, axis requires 0 <= axis < 3 =>
      seq(n, j requires 0 <= j < n => Coordinate(f(states, source, target, j).position, axis)))
  }

  /** `out_states.velocity.d_xyz`: three rows of `n` transformed velocities. */
  function VelocityRows<V>(f: AstropyTransform<V>, states: Matrix, source: FrameSpec<V>, target: FrameSpec<V>, n: nat): (m: Matrix)
    ensures |m| == 3 && forall r :: 0 <= r < 3 ==> |m[r]| == n
  {
    seq(3, axis requires 0 <= axis < 3 =>
      seq(n, j requires 0 <= j < n => Coordinate(f(states, source, target, j).velocity, axis)))
  }

  /** The contents of a two-dimensional array, row by row. */
  function Rows(a: array2<real>): Matrix
    reads a
  {
    seq(a.Length0, i requires 0 <= i < a.Length0 reads a =>
      seq(a.Length1, j requires 0 <= j < a.Length1 reads a => a[i, j]))
  }

  /** Array `a` holds exactly the matrix `m`. */
  predicate Holds(a: array2<real>, m: Matrix)
    reads a
  {
    a.Length0 == |m| &&
    (forall i :: 0 <= i < |m| ==> |m[i]| == a.Length1) &&
    (forall i, j :: 0 <= i < a.Length0 && 0 <= j < a.Length1 ==> a[i, j] == m[i][j])
  }

  /** `states.copy()`. */
  method CopyStates(a: array2<real>) returns (c: array2<real>)
    ensures fresh(c)
    ensures c.Length0 == a.Length0 && c.Length1 == a.Length1
    ensures Holds(c, Rows(a))
  {
    c := new real[a.Length0, a.Length1];
    for i := 0 to a.Length0
      invariant forall i', j :: 0 <= i' < i && 0 <= j < a.Length1 ==> c[i', j] == a[i', j]
    {
      for j := 0 to a.Length1
        invariant forall i', j' :: 0 <= i' < i && 0 <= j' < a.Length1 ==> c[i', j'] == a[i', j']
        invariant forall j' :: 0 <= j' < j ==> c[i, j'] == a[i, j']
      {
        c[i, j] := a[i, j];
      }
    }
  }

  /** `a[lo:lo + len(block), ...] = block`: overwrites the rows from `lo` on and
      leaves every other row as it was. */
  method AssignRows(a: array2<real>, lo: nat, block: Matrix)
    requires lo + |block| <= a.Length0
    requires forall r :: 0 <= r < |block| ==> |block[r]| == a.Length1
    modifies a
    ensures forall i, j :: 0 <= i < a.Length0 && 0 <= j < a.Length1 ==>
      a[i, j] == if lo <= i < lo + |block| then block[i - lo][j] else old(a[i, j])
  {
    for r := 0 to |block|
      invariant forall i, j :: 0 <= i < a.Length0 && 0 <= j < a.Length1 ==>
        a[i, j] == if lo <= i < lo + r then block[i - lo][j] else old(a[i, j])
    {
      for j := 0 to a.Length1
        invariant forall i, j' :: 0 <= i < a.Length0 && 0 <= j' < a.Length1 ==>
          a[i, j'] == if lo <= i < lo + r || (i == lo + r && j' < j) then block[i - lo][j'] else old(a[i, j'])
      {
        a[lo + r, j] := block[r][j];
      }
    }
  }

  /** `rets[:3, ...] = xyz` followed by `rets[3:, ...] = dxyz`: afterwards the
      six rows of `rets` are exactly the three position rows and the three
      velocity rows. */
  method StoreState(rets: array2<real>, xyz: Matrix, dxyz: Matrix)
    requires rets.Length0 == 6 && |xyz| == 3 && |dxyz| == 3
    requires forall r :: 0 <= r < 3 ==> |xyz[r]| == rets.Length1 && |dxyz[r]| == rets.Length1
    modifies rets
    ensures Holds(rets, xyz + dxyz)
  {
    AssignRows(rets, 0, xyz);
    AssignRows(rets, 3, dxyz);
  }

  /** The `ValueError` raised for a name that is not accepted. */
  datatype ConvertError = ValueError(message: string)

  function Unrecognized(side: string, name: string): (m: string)
    ensures |m| == |side| + |name| + 80
    ensures m[..|side|] == side
    ensures m[|side| + 8..|side| + 8 + |name|] == name
  {
    side + " frame '" + name + "' not recognized, " + "please check spelling or perform manual transformation"
  }

  datatype Outcome = Converted(states: array2<real>) | Raised(error: ConvertError)

  /** `convert`: always a fresh array when it succeeds; for equal names (up to
      letter case) a copy of `states`, otherwise rows 0-2 hold the transformed
      positions and rows 3-5 the transformed velocities. The caller's array is
      never written. */
  method Convert<V>(t: V, states: array2<real>, inFrame: string, outFrame: string,
                    frameKwargs: map<string, V>, astropy: AstropyTransform<V>) returns (r: Outcome)
    requires states.Length0 == 6
    ensures r.Converted? ==> fresh(r.states)
    ensures match Dispatch(t, inFrame, outFrame, frameKwargs)
      case Unchanged => r.Converted? && Holds(r.states, Rows(states))
      case UnknownInFrame(name) => r == Raised(ValueError(Unrecognized("In", name)))
      case UnknownOutFrame(name) => r == Raised(ValueError(Unrecognized("Out", name)))
      case Transform(source, target) =>
        (r.Converted? &&
         Holds(r.states, PositionRows(astropy, Rows(states), source, target, states.Length1) +
                         VelocityRows(astropy, Rows(states), source, target, states.Length1)))
  {
    var inName := Upper(inFrame);
    var outName := Upper(outFrame);

    if inName == outName {
      var copy := CopyStates(states);
      return Converted(copy);
    }

    if inName !in Frames {
      return Raised(ValueError(Unrecognized("In", inName)));
    }
    var inCls := Frames[inName];
    var inKw := FrameKeywords(frameKwargs, inCls, t);
    var source := FrameSpec(inCls, inKw);
    var inputStates := Rows(states);

    if outName !in Frames {
      return Raised(ValueError(Unrecognized("Out", outName)));
    }
    var outCls := Frames[outName];
    var outKw := FrameKeywords(frameKwargs, outCls, t);
    var target := FrameSpec(outCls, outKw);

    var n := states.Length1;
    var rets := CopyStates(states);
    var xyz := PositionRows(astropy, inputStates, source, target, n);
    var dxyz := VelocityRows(astropy, inputStates, source, target, n);
    StoreState(rets, xyz, dxyz);
    return Converted(rets);
  }
}
