/**
 * The die face: a square of side `size` with seven pips, each either lit
 * (foreground fill) or unlit (background fill), and a hidden flag. The face
 * and all seven pips are drawn exactly when the die is not hidden, so the
 * hidden flag stands for the drawn state of all eight shapes.
 *
 * Pips are numbered as in the source: 1, 2, 3 up the left column
 * (x - offset), 4 in the centre, 5, 6, 7 up the right column
 * (x + offset); within a column y grows from 1 to 3 and from 5 to 7.
 */
module Die {
  import opened Geometry

  /**
   * The pips `SetValue(value)` lights. The last branch of the source is an
   * `else`, so every value other than 1..5 (6, but also 0, negatives and
   * values above 6) lights the same six pips, and pip 6 is never among them.
   */
  function Pattern(value: int): (pips: set<int>)
    ensures pips <= {1, 2, 3, 4, 5, 6, 7}
  {
    if value == 1 then {4}
    else if value == 2 then {1, 7}
    else if value == 3 then {1, 4, 7}
    else if value == 4 then {1, 3, 5, 7}
    else if value == 5 then {1, 3, 4, 5, 7}
    else {1, 2, 3, 4, 5, 7}
  }

  /** `value` pips for 1..5, six for every other value. */
  lemma PatternSize(value: int)
    ensures |Pattern(value)| == if 1 <= value <= 5 then value else 6
  {
    var s := Pattern(value);
    if value == 1 {
    } else if value == 2 {
      assert s == {1} + {7};
    } else if value == 3 {
      assert s == {1, 4} + {7};
    } else if value == 4 {
      assert s == {1, 3} + {5, 7};
    } else if value == 5 {
      assert s == {1, 3, 4} + {5, 7};
    } else {
      assert s == {1, 2, 3} + {4, 5, 7};
    }
  }

  /** Pip 6 (right column, middle) is lit by no value at all. */
  lemma PipSixNeverLit(value: int)
    ensures 6 !in Pattern(value)
  {
  }

  /** Reads a face back: the value a set of lit pips shows, 6 standing for the six-pip face. */
  function ShownValue(pips: set<int>): int {
    if 2 in pips then 6
    else if 3 in pips then (if 4 in pips then 5 else 4)
    else if 1 in pips then (if 4 in pips then 3 else 2)
    else 1
  }

  /** Every face can be read back: 1..5 as themselves, every other value as the six-pip face. */
  lemma ShownValueOfPattern(value: int)
    ensures ShownValue(Pattern(value)) == if 1 <= value <= 5 then value else 6
  {
  }

  /** The lit pips tell the values 1..5 apart from each other and from every other value, which all look alike. */
  lemma PatternDistinguishes(v: int, w: int)
    ensures Pattern(v) == Pattern(w) <==> v == w || (!(1 <= v <= 5) && !(1 <= w <= 5))
  {
    ShownValueOfPattern(v);
    ShownValueOfPattern(w);
  }

  /** The fill of the seven pips, `true` for lit, in pip order. */
  datatype Face = Face(pip1: bool, pip2: bool, pip3: bool, pip4: bool, pip5: bool, pip6: bool, pip7: bool) {
    /** The numbers of the lit pips. */
    function Lit(): (pips: set<int>)
      ensures pips <= {1, 2, 3, 4, 5, 6, 7}
    {
      (if pip1 then {1} else {}) + (if pip2 then {2} else {}) + (if pip3 then {3} else {}) +
      (if pip4 then {4} else {}) + (if pip5 then {5} else {}) + (if pip6 then {6} else {}) +
      (if pip7 then {7} else {})
    }
  }

  /** The face lighting exactly the pips numbered in `pips`. */
  function FaceOf(pips: set<int>): Face {
    Face(1 in pips, 2 in pips, 3 in pips, 4 in pips, 5 in pips, 6 in pips, 7 in pips)
  }

  /** A face and its set of lit pips determine each other. */
  lemma FaceOfLit(f: Face, pips: set<int>)
    requires pips <= {1, 2, 3, 4, 5, 6, 7}
    ensures f == FaceOf(pips) <==> f.Lit() == pips
  {
    LitMembers(f);
    if f == FaceOf(pips) {
      forall k ensures k in f.Lit() <==> k in pips {
        assert k in pips ==> 1 <= k <= 7;
      }
    }
  }

  /** The lit set holds pip `k` exactly when the face lights it. */
  lemma LitMembers(f: Face)
    ensures forall k :: k in f.Lit() <==> (k == 1 && f.pip1) || (k == 2 && f.pip2) || (k == 3 && f.pip3) || (k == 4 && f.pip4)
                                          || (k == 5 && f.pip5) || (k == 6 && f.pip6) || (k == 7 && f.pip7)
  {
  }

  /** The pip centres, in pip order, around `center` at distance `offset`. */
  function PipLayout(center: Point, offset: real): (pips: seq<Point>)
    ensures |pips| == 7
    ensures forall k :: 0 <= k < 7 ==>
              pips[6 - k] == Point(2.0 * center.x - pips[k].x, 2.0 * center.y - pips[k].y)
  {
    var cx, cy := center.x, center.y;
    [ Point(cx - offset, cy - offset), Point(cx - offset, cy), Point(cx - offset, cy + offset),
      Point(cx, cy),
      Point(cx + offset, cy - offset), Point(cx + offset, cy), Point(cx + offset, cy + offset) ]
  }

  /** With radius `size / 10` and offset `0.3 * size`, every pip lies inside the face. */
  lemma PipsInsideFace(center: Point, size: real, k: nat)
    requires size > 0.0 && k < 7
    ensures var pip := PipLayout(center, 0.6 * (size / 2.0))[k];
            var face := BoxAround(center, size, size);
            face.xmin <= pip.x - 0.1 * size && pip.x + 0.1 * size <= face.xmax &&
            face.ymin <= pip.y - 0.1 * size && pip.y + 0.1 * size <= face.ymax
  {
  }

  /** Two different pips are further apart than two radii along x or along y, so no two pips overlap. */
  lemma PipsApart(center: Point, size: real, j: nat, k: nat)
    requires size > 0.0 && j < 7 && k < 7 && j != k
    ensures var pips := PipLayout(center, 0.6 * (size / 2.0));
            Abs(pips[j].x - pips[k].x) > 2.0 * (0.1 * size) || Abs(pips[j].y - pips[k].y) > 2.0 * (0.1 * size)
  {
  }

  class DieView {
    const center: Point
    const size: real
    /** The radius of a pip. */
    const psize: real
    /** The distance from the centre to the outer pips, along each axis. */
    const offset: real
    const face: Box
    const pipCenters: seq<Point>
    var pip1: bool
    var pip2: bool
    var pip3: bool
    var pip4: bool
    var pip5: bool
    var pip6: bool
    var pip7: bool
    var isHidden: bool

    /** The fills of the seven pips. */
    function Shown(): Face
      reads this
    {
      Face(pip1, pip2, pip3, pip4, pip5, pip6, pip7)
    }

    /** A visible die showing 1, with the pips laid out around `center`. */
    constructor (center: Point, size: real)
      ensures this.center == center && this.size == size
      ensures psize == 0.1 * size && offset == 0.6 * (size / 2.0)
      ensures face == BoxAround(center, size, size)
      ensures pipCenters == PipLayout(center, offset)
      ensures !isHidden && Shown() == FaceOf(Pattern(1))
    {
      this.center := center;
      this.size := size;
      isHidden := false;
      psize := 0.1 * size;
      var hsize := size / 2.0;
      offset := 0.6 * hsize;
      face := BoxAround(center, size, size);
      pipCenters := PipLayout(center, 0.6 * hsize);
      pip1, pip2, pip3, pip4, pip5, pip6, pip7 := false, false, false, false, false, false, false;
      new;
      SetValue(1);
    }

    /** Turns every pip off, then lights exactly the pips of `value`; visibility is untouched. */
    method SetValue(value: int)
      modifies this
      ensures Shown() == FaceOf(Pattern(value)) && Shown().Lit() == Pattern(value)
      ensures isHidden == old(isHidden)
    {
      pip1, pip2, pip3, pip4, pip5, pip6, pip7 := false, false, false, false, false, false, false;
      if value == 1 {
        pip4 := true;
      } else if value == 2 {
        pip1 := true;
        pip7 := true;
      } else if value == 3 {
        pip1 := true;
        pip7 := true;
        pip4 := true;
      } else if value == 4 {
        pip1 := true;
        pip3 := true;
        pip5 := true;
        pip7 := true;
      } else if value == 5 {
        pip1 := true;
        pip3 := true;
        pip4 := true;
        pip5 := true;
        pip7 := true;
      } else {
        pip1 := true;
        pip2 := true;
        pip3 := true;
        pip4 := true;
        pip5 := true;
        pip7 := true;
      }
      FaceOfLit(Shown(), Pattern(value));
    }

    /** Takes the die off the window; the lit pips are kept. A hidden die stays as it is. */
    method Hide()
      modifies this`isHidden
      ensures isHidden && Shown() == old(Shown())
    {
      if !isHidden {
        isHidden := true;
      }
    }

    /** Puts a hidden die back on the window showing 1; a visible die keeps its value. */
    method Show()
      modifies this
      ensures !isHidden
      ensures Shown() == if old(isHidden) then FaceOf(Pattern(1)) else old(Shown())
    {
      if isHidden {
        isHidden := false;
        SetValue(1);
      }
    }
  }
}
