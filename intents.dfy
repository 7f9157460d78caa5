/** The intent catalog and the classifier of `CommandProcessor.identify_command`:
    a fixed table of intent kinds, each with an ordered list of patterns, and
    a first-match search over it. */
module Intents {
  import opened Strings
  import opened Regex

  /** The dictionary keys of the catalog, plus `'unknown'`. */
  datatype Kind = Call | App | Music | Reminder | Weather | Navigation | Note | Control | Unknown

  datatype Intent = Intent(kind: Kind, patterns: seq<Pattern>)

  /** The catalog, kinds and patterns in the order the source lists them
      (dictionaries iterate in insertion order). */
  function Catalog(): seq<Intent> {
    [ Intent(Call, [ [Lit("با "), AnyPlus, Lit(" تماس بگیر")],
                     [Lit("زنگ بزن به "), AnyPlus],
                     [Lit("تماس با "), AnyPlus] ]),
      Intent(App, [ [AnyPlus, Lit(" رو باز کن")],
                    [Lit("برنامه "), AnyPlus, Lit(" رو اجرا کن")],
                    [Lit("اجرای "), AnyPlus] ]),
      Intent(Music, [ [Lit("آهنگ "), AnyPlus, Lit(" رو پخش کن")],
                      [Lit("موزیک "), AnyPlus],
                      [Lit("یه آهنگ از "), AnyPlus],
                      [Lit("موسیقی پخش کن")] ]),
      Intent(Reminder, [ [Lit("یادآوری کن "), AnyPlus],
                         [Lit("یادت باشه "), AnyPlus],
                         [Lit("فردا "), AnyPlus],
                         [Lit("ساعت "), DigitsPlus, Lit(" "), AnyPlus] ]),
      Intent(Weather, [ [Lit("هوا چطوره")],
                        [Lit("هوای امروز")],
                        [Lit("دما چند درجه")] ]),
      Intent(Navigation, [ [Lit("راه "), AnyPlus],
                           [Lit("مسیر به "), AnyPlus],
                           [Lit("چطور برم "), AnyPlus] ]),
      Intent(Note, [ [Lit("یادداشت کن "), AnyPlus],
                     [Lit("بنویس "), AnyPlus],
                     [Lit("ذخیره کن "), AnyPlus] ]),
      Intent(Control, [ [Lit("ساکت شو")],
                        [Lit("خاموش شو")],
                        [Lit("سکوت")],
                        [Lit("خواب")] ])
    ]
  }

  /** The groups of the first pattern in `ps` that `re.search` finds in `t`. */
  function FirstHit(ps: seq<Pattern>, t: string): Option<seq<string>> {
    if ps == [] then None
    else match Search(ps[0], t)
      case Some(h) => Some(h.groups)
      case None => FirstHit(ps[1..], t)
  }

  /** First kind with a matching pattern, and that pattern's groups. */
  function ClassifyIn(cat: seq<Intent>, t: string): (Kind, seq<string>) {
    if cat == [] then (Unknown, [])
    else match FirstHit(cat[0].patterns, t)
      case Some(g) => (cat[0].kind, g)
      case None => ClassifyIn(cat[1..], t)
  }

  /** `identify_command(t)`. */
  function Classify(t: string): (Kind, seq<string>) {
    ClassifyIn(Catalog(), t)
  }

  // ---------------------------------------------------------------- the order

  /** No pattern of the catalog is found in `t`. */
  predicate NoneFound(cat: seq<Intent>, t: string) {
    forall k, j :: 0 <= k < |cat| && 0 <= j < |cat[k].patterns| ==> Search(cat[k].patterns[j], t).None?
  }

  /** Pattern `j` of intent `k` is found in `t`, and no pattern before it
      (every pattern of an earlier kind, every earlier pattern of kind `k`)
      is. */
  predicate FirstFound(cat: seq<Intent>, t: string, k: int, j: int) {
    && 0 <= k < |cat| && 0 <= j < |cat[k].patterns|
    && Search(cat[k].patterns[j], t).Some?
    && (forall k', j' :: 0 <= k' < k && 0 <= j' < |cat[k'].patterns| ==> Search(cat[k'].patterns[j'], t).None?)
    && (forall j' :: 0 <= j' < j ==> Search(cat[k].patterns[j'], t).None?)
  }

  lemma {:induction false} FirstHitSpec(ps: seq<Pattern>, t: string)
    ensures FirstHit(ps, t).None? ==> forall j :: 0 <= j < |ps| ==> Search(ps[j], t).None?
    ensures FirstHit(ps, t).Some? ==>
      exists j :: && 0 <= j < |ps| && Search(ps[j], t).Some?
                  && FirstHit(ps, t).value == Search(ps[j], t).value.groups
                  && forall j' :: 0 <= j' < j ==> Search(ps[j'], t).None?
    decreases |ps|
  {
    if ps != [] && Search(ps[0], t).None? {
      FirstHitSpec(ps[1..], t);
      if FirstHit(ps, t).Some? {
        var j :| && 0 <= j < |ps[1..]| && Search(ps[1..][j], t).Some?
                 && FirstHit(ps[1..], t).value == Search(ps[1..][j], t).value.groups
                 && forall j' :: 0 <= j' < j ==> Search(ps[1..][j'], t).None?;
        assert forall j' :: 0 <= j' < j + 1 ==> Search(ps[j'], t).None? by {
          forall j' | 0 <= j' < j + 1 ensures Search(ps[j'], t).None? {
            if j' > 0 { assert ps[j'] == ps[1..][j' - 1]; }
          }
        }
        assert ps[j + 1] == ps[1..][j];
      } else {
        forall j | 0 <= j < |ps| ensures Search(ps[j], t).None? {
          if j > 0 { assert ps[j] == ps[1..][j - 1]; }
        }
      }
    }
  }

  /** The classifier returns the kind of the first pattern in catalog order
      that is found, with that pattern's groups; if none is found it returns
      `(Unknown, [])`. */
  lemma {:induction false} ClassifyInSpec(cat: seq<Intent>, t: string)
    ensures NoneFound(cat, t) ==> ClassifyIn(cat, t) == (Unknown, [])
    ensures !NoneFound(cat, t) ==>
      exists k, j :: && FirstFound(cat, t, k, j)
                     && ClassifyIn(cat, t) == (cat[k].kind, Search(cat[k].patterns[j], t).value.groups)
    decreases |cat|
  {
    if cat != [] {
      FirstHitSpec(cat[0].patterns, t);
      var rest := cat[1..];
      match FirstHit(cat[0].patterns, t)
      case Some(g) =>
        var j :| && 0 <= j < |cat[0].patterns| && Search(cat[0].patterns[j], t).Some?
                 && g == Search(cat[0].patterns[j], t).value.groups
                 && forall j' :: 0 <= j' < j ==> Search(cat[0].patterns[j'], t).None?;
        assert FirstFound(cat, t, 0, j);
      case None =>
        ClassifyInSpec(rest, t);
        assert forall k :: 0 <= k < |rest| ==> rest[k] == cat[k + 1];
        if NoneFound(rest, t) {
          forall k, j | 0 <= k < |cat| && 0 <= j < |cat[k].patterns|
            ensures Search(cat[k].patterns[j], t).None?
          {
            if k > 0 { assert cat[k] == rest[k - 1]; }
          }
        } else {
          var k, j :| && FirstFound(rest, t, k, j)
                      && ClassifyIn(rest, t) == (rest[k].kind, Search(rest[k].patterns[j], t).value.groups);
          forall k', j' | 0 <= k' < k + 1 && 0 <= j' < |cat[k'].patterns|
            ensures Search(cat[k'].patterns[j'], t).None?
          {
            if k' > 0 { assert cat[k'] == rest[k' - 1]; }
          }
          assert FirstFound(cat, t, k + 1, j);
        }
    }
  }

  /** The kinds of the catalog, in order; none of them is `Unknown`. */
  lemma CatalogKinds()
    ensures |Catalog()| == 8
    ensures Catalog()[0].kind == Call && Catalog()[1].kind == App
    ensures Catalog()[2].kind == Music && Catalog()[3].kind == Reminder
    ensures Catalog()[4].kind == Weather && Catalog()[5].kind == Navigation
    ensures Catalog()[6].kind == Note && Catalog()[7].kind == Control
  {
  }

  /** How many groups each pattern of the catalog captures. */
  lemma CatalogGroups(k: int, j: int)
    requires 0 <= k < |Catalog()| && 0 <= j < |Catalog()[k].patterns|
    ensures var n := Groups(Catalog()[k].patterns[j]);
      && (k in {0, 1, 5, 6} ==> n == 1)
      && (k == 2 ==> (n == 1 <==> j < 3) && (n == 0 <==> j == 3))
      && (k == 3 ==> (n == 1 <==> j < 3) && (n == 2 <==> j == 3))
      && (k in {4, 7} ==> n == 0)
  {
  }

  /** The classification facts for any catalog without an `Unknown` entry. */
  lemma ClassifyInGroups(cat: seq<Intent>, t: string)
    requires forall k :: 0 <= k < |cat| ==> cat[k].kind != Unknown
    ensures ClassifyIn(cat, t).0 == Unknown <==> NoneFound(cat, t)
    ensures ClassifyIn(cat, t).0 == Unknown ==> ClassifyIn(cat, t).1 == []
    ensures ClassifyIn(cat, t).0 != Unknown ==>
      exists k, j :: && FirstFound(cat, t, k, j)
                     && ClassifyIn(cat, t).0 == cat[k].kind
                     && ClassifyIn(cat, t).1 == Search(cat[k].patterns[j], t).value.groups
                     && |ClassifyIn(cat, t).1| == Groups(cat[k].patterns[j])
  {
    ClassifyInSpec(cat, t);
    if !NoneFound(cat, t) {
      var k, j :| && FirstFound(cat, t, k, j)
                  && ClassifyIn(cat, t) == (cat[k].kind, Search(cat[k].patterns[j], t).value.groups);
      SearchSpec(cat[k].patterns[j], t);
    }
  }

  /** `identify_command` on the real catalog: the first pattern in catalog
      order that `re.search` finds decides the kind; the tuple it returns
      holds exactly one string per group of that pattern; and `Unknown`, with
      no groups, comes back exactly when no pattern is found. */
  lemma ClassifySpec(t: string)
    ensures Classify(t).0 == Unknown <==> NoneFound(Catalog(), t)
    ensures Classify(t).0 == Unknown ==> Classify(t).1 == []
    ensures Classify(t).0 != Unknown ==>
      exists k, j :: && FirstFound(Catalog(), t, k, j)
                     && Classify(t).0 == Catalog()[k].kind
                     && Classify(t).1 == Search(Catalog()[k].patterns[j], t).value.groups
                     && |Classify(t).1| == Groups(Catalog()[k].patterns[j])
  {
    CatalogKinds();
    ClassifyInGroups(Catalog(), t);
  }

  /** What the handlers receive from the classifier: weather and control
      commands carry no groups; call, app, navigation and note commands
      exactly one; music at most one (none for `موسیقی پخش کن`); a reminder
      one, or two when the `ساعت (\d+) (.+)` pattern decided, and then the
      first is the digit string. */
  lemma ClassifyGroupShape(t: string)
    ensures var (kind, g) := Classify(t);
      && (kind == Weather || kind == Control || kind == Unknown ==> g == [])
      && (kind == Call || kind == App || kind == Navigation || kind == Note ==> |g| == 1)
      && (kind == Music ==> |g| <= 1)
      && (kind == Reminder ==> 1 <= |g| <= 2 && (|g| == 2 ==> AllDigits(g[0])))
  {
    ClassifySpec(t);
    if Classify(t).0 != Unknown {
      var k, j :| && FirstFound(Catalog(), t, k, j)
                  && Classify(t).0 == Catalog()[k].kind
                  && Classify(t).1 == Search(Catalog()[k].patterns[j], t).value.groups
                  && |Classify(t).1| == Groups(Catalog()[k].patterns[j]);
      GroupShapeAt(k, j, t);
    }
  }

  /** The group shape of a match of pattern `j` of intent `k`. */
  lemma GroupShapeAt(k: int, j: int, t: string)
    requires 0 <= k < |Catalog()| && 0 <= j < |Catalog()[k].patterns|
    requires Search(Catalog()[k].patterns[j], t).Some?
    ensures var kind, g := Catalog()[k].kind, Search(Catalog()[k].patterns[j], t).value.groups;
      && (kind == Weather || kind == Control ==> g == [])
      && (kind == Call || kind == App || kind == Navigation || kind == Note ==> |g| == 1)
      && (kind == Music ==> |g| <= 1)
      && (kind == Reminder ==> 1 <= |g| <= 2 && (|g| == 2 ==> AllDigits(g[0])))
  {
    var p := Catalog()[k].patterns[j];
    SearchSpec(p, t);
    CatalogKinds();
    CatalogGroups(k, j);
    if k == 3 && j == 3 {
      HourGroupDigits(t);
    }
  }

  /** The first group of `ساعت (\d+) (.+)` is a digit string. */
  lemma HourGroupDigits(t: string)
    requires Search(Catalog()[3].patterns[3], t).Some?
    ensures var g := Search(Catalog()[3].patterns[3], t).value.groups;
      g != [] && AllDigits(g[0])
  {
    var p := Catalog()[3].patterns[3];
    assert p == [Lit("ساعت "), DigitsPlus, Lit(" "), AnyPlus];
    SearchSpec(p, t);
    var hit := Search(p, t).value;
    assert Reads(p[1..], t, hit.start + |"ساعت "|, hit.groups);
    assert AdmitsAll(DigitsPlus, hit.groups[0]);
  }
}
