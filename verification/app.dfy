/**
 * The application component: the static track catalogue, the composition of
 * the resolved flag values into one stacked pattern expression, the "winning"
 * option shown per track, and the vote handler.
 */
module App {
  import opened Wrappers
  import opened Text
  import opened Patterns
  import TrackColumn
  import Strudel

  /**
   * Flag values as the flag client exposes them: flag key -> variation value.
   * A key that is not in the map reads as `undefined`.
   */
  type Flags = map<string, string>

  // ---------------------------------------------------------------------------
  // The static catalogue

  datatype Track = Track(id: string, title: string, options: seq<TrackColumn.OptionEntry>)

  function ThreeOptions(n1: string, n2: string, n3: string): seq<TrackColumn.OptionEntry>
  {
    [TrackColumn.OptionEntry("option1", n1), TrackColumn.OptionEntry("option2", n2), TrackColumn.OptionEntry("option3", n3)]
  }

  const TRACKS: seq<Track> := [
    Track("bass", "Bass", ThreeOptions("Deep Pulse", "Driving Saw", "Funky Square")),
    Track("drums", "Drums", ThreeOptions("Basic 4/4", "Breakbeat", "Double Time")),
    Track("harmony", "Harmony", ThreeOptions("Warm Pad", "Stabs", "Arpeggio")),
    Track("melody", "Melody", ThreeOptions("Main Theme", "Counterpoint", "Minimal"))
  ]

  /**
   * Four tracks with distinct ids, in the order the composition stacks them,
   * each offering option1..option3 in order; every offered option has a fragment.
   */
  lemma CatalogueShape()
    ensures |TRACKS| == 4
    ensures forall i, j :: 0 <= i < j < |TRACKS| ==> TRACKS[i].id != TRACKS[j].id
    ensures forall i :: 0 <= i < |TRACKS| ==> TRACKS[i].id == Tracks[i] && TRACKS[i].id in PATTERNS
    ensures forall i :: 0 <= i < |TRACKS| ==>
      |TRACKS[i].options| == 3 &&
      TRACKS[i].options[0].id == "option1" &&
      TRACKS[i].options[1].id == "option2" &&
      TRACKS[i].options[2].id == "option3"
    ensures forall i, k :: 0 <= i < |TRACKS| && 0 <= k < |TRACKS[i].options| ==>
      TRACKS[i].options[k].id in PATTERNS[TRACKS[i].id]
    ensures forall i :: 0 <= i < |TRACKS| ==> TrackColumn.DistinctIds(TRACKS[i].options)
  {
    forall i | 0 <= i < |TRACKS|
      ensures TRACKS[i].id == Tracks[i] && TRACKS[i].id in PATTERNS
      ensures |TRACKS[i].options| == 3 && TRACKS[i].options[0].id == "option1" &&
        TRACKS[i].options[1].id == "option2" && TRACKS[i].options[2].id == "option3"
      ensures TrackColumn.DistinctIds(TRACKS[i].options)
    {
      CatalogueTrack(i);
    }
    forall i, k | 0 <= i < |TRACKS| && 0 <= k < |TRACKS[i].options|
      ensures TRACKS[i].options[k].id in PATTERNS[TRACKS[i].id]
    {
      CatalogueTrack(i);
    }
    forall i, j | 0 <= i < j < |TRACKS|
      ensures TRACKS[i].id != TRACKS[j].id
    {
      CatalogueTrack(i);
      CatalogueTrack(j);
    }
  }

  /** One catalogue track: the table's track at that position, offering option1..option3 of its table. */
  lemma CatalogueTrack(i: nat)
    requires i < |TRACKS|
    ensures TRACKS[i].id == Tracks[i] && Tracks[i] in PATTERNS
    ensures |TRACKS[i].options| == 3 && TRACKS[i].options[0].id == "option1" &&
      TRACKS[i].options[1].id == "option2" && TRACKS[i].options[2].id == "option3"
    ensures TrackColumn.DistinctIds(TRACKS[i].options)
    ensures forall k :: 0 <= k < |TRACKS[i].options| ==> TRACKS[i].options[k].id in PATTERNS[Tracks[i]]
  {
    var n1, n2, n3 := CatalogueEntry(i);
    assert Tracks[i] in PATTERNS by { TableShape(); }
    TrackTable(Tracks[i]);
  }

  // ---------------------------------------------------------------------------
  // Property lookup as JavaScript performs it

  /** What `obj[key]` yields on a plain object literal. */
  datatype Prop = Undefined | Own(value: string) | Inherited(name: string)

  /** The properties every plain object inherits from `Object.prototype`. */
  const ObjectPrototypeMembers: set<string> := {
    "constructor", "hasOwnProperty", "isPrototypeOf", "propertyIsEnumerable",
    "toLocaleString", "toString", "valueOf", "__defineGetter__", "__defineSetter__",
    "__lookupGetter__", "__lookupSetter__", "__proto__"
  }

  /** A missing flag is looked up under "undefined", which no object inherits. */
  lemma UndefinedIsNoMember()
    ensures "undefined" !in ObjectPrototypeMembers
  {
  }

  /** The property key `flags.<track>` turns into when used as an index: `undefined` becomes "undefined". */
  function PropertyKey(flags: Flags, track: string): string
  {
    if track in flags then flags[track] else "undefined"
  }

  /**
   * `obj[key]` on a plain object literal: its own entry when it has one, else
   * the member every object inherits under that name, else nothing.
   */
  function GetProperty(obj: map<string, string>, key: string): (p: Prop)
    ensures p.Own? <==> key in obj
    ensures p.Own? ==> p.value == obj[key]
    ensures p.Inherited? <==> key !in obj && key in ObjectPrototypeMembers
    ensures p.Inherited? ==> p.name == key
  {
    if key in obj then Own(obj[key])
    else if key in ObjectPrototypeMembers then Inherited(key)
    else Undefined
  }

  /** JavaScript truthiness: strings are falsy only when empty, inherited members are objects. */
  predicate Truthy(p: Prop)
    ensures Truthy(p) ==> Interpolate(p) != ""
  {
    match p
    case Undefined => false
    case Own(s) => s != ""
    case Inherited(_) => true
  }

  /** The text `${p}` produces inside a template literal. */
  function Interpolate(p: Prop): (text: string)
    ensures p.Undefined? ==> text == "undefined"
    ensures p.Own? ==> text == p.value
    ensures p.Inherited? ==> text != "" && (text[0] == 'f' || text[0] == '[')
  {
    match p
    case Undefined => "undefined"
    case Own(s) => s
    case Inherited(n) =>
      if n == "__proto__" then "[object Object]"
      else if n == "constructor" then "function Object() { [native code] }"
      else NativePrefix + n + NativeSuffix
  }

  /** The text around a native function's name, as the V8 engine renders it on one line. */
  const NativePrefix: string := "function "
  const NativeSuffix: string := "() { [native code] }"

  // ---------------------------------------------------------------------------
  // Composition

  /** The fragment of one track as written: `PATTERNS.<track>[flags.<track>] || PATTERNS.<track>.option1`. */
  function FragmentAsWritten(flags: Flags, track: string): (fragment: string)
    requires track in PATTERNS
    ensures PropertyKey(flags, track) !in ObjectPrototypeMembers ==> fragment == Fragment(flags, track)
  {
    var p := GetProperty(PATTERNS[track], PropertyKey(flags, track));
    if Truthy(p) then Interpolate(p) else PATTERNS[track][DefaultOption]
  }

  /** The fragment of one track, looking only at the table's own entries. */
  function Fragment(flags: Flags, track: string): (fragment: string)
    requires track in PATTERNS
    ensures ResolvedOption(flags, track) in PATTERNS[track]
    ensures fragment == PATTERNS[track][ResolvedOption(flags, track)]
  {
    TrackTable(track);
    var table := PATTERNS[track];
    var key := PropertyKey(flags, track);
    if key in table && table[key] != "" then table[key] else table[DefaultOption]
  }

  /** The option a track plays: its flag value when that names an option of the table, else the default. */
  function ResolvedOption(flags: Flags, track: string): (option: string)
    requires track in PATTERNS
    ensures option in OptionIds && option in PATTERNS[track]
  {
    TrackTable(track);
    if track in flags && flags[track] in PATTERNS[track] then flags[track] else DefaultOption
  }

  /** The fixed text of the effect's template literal around the four fragments. */
  const Open: string := "stack(\n        "
  const Separator: string := ",\n        "
  const Close: string := "\n      )"

  /**
   * The stacked expression of the four fragments: `stack(`, then the fragments
   * in track order, each on its own indented line and separated by commas, then
   * `)` on a line of its own.
   */
  function Stack(bass: string, drums: string, harmony: string, melody: string): (expr: string)
    ensures Open <= expr && |Close| <= |expr| && expr[|expr| - |Close|..] == Close
  {
    Open + (bass + (Separator + (drums + (Separator + (harmony + (Separator + (melody + Close)))))))
  }

  /** The pattern expression for the current flags. */
  function Compose(flags: Flags): (expr: string)
    ensures expr == Stack(PATTERNS["bass"][ResolvedOption(flags, "bass")], PATTERNS["drums"][ResolvedOption(flags, "drums")],
                          PATTERNS["harmony"][ResolvedOption(flags, "harmony")], PATTERNS["melody"][ResolvedOption(flags, "melody")])
  {
    Stack(Fragment(flags, "bass"), Fragment(flags, "drums"), Fragment(flags, "harmony"), Fragment(flags, "melody"))
  }

  /** The pattern expression as the effect builds it, with V8's text for an inherited native function. */
  function ComposeAsWritten(flags: Flags): (expr: string)
    ensures (forall t :: t in PATTERNS && t in flags ==> flags[t] !in ObjectPrototypeMembers) ==> expr == Compose(flags)
  {
    UndefinedIsNoMember();
    TableShape();
    Stack(FragmentAsWritten(flags, "bass"), FragmentAsWritten(flags, "drums"),
          FragmentAsWritten(flags, "harmony"), FragmentAsWritten(flags, "melody"))
  }

  /**
   * A track plays the fragment its flag names when the table has it, and the
   * option1 fragment when the flag is missing or names nothing in the table.
   */
  lemma FragmentRule(flags: Flags, track: string)
    requires track in PATTERNS
    ensures Fragment(flags, track) ==
      if track in flags && flags[track] in PATTERNS[track] then PATTERNS[track][flags[track]]
      else PATTERNS[track]["option1"]
    ensures ResolvedOption(flags, track) in PATTERNS[track]
    ensures Fragment(flags, track) == PATTERNS[track][ResolvedOption(flags, track)]
  {
    TrackTable(track);
  }

  /** Flags that name no known option for any track compose like no flags at all: every track at option1. */
  lemma FallbackDeterminism(flags: Flags)
    requires forall t :: t in PATTERNS && t in flags ==> flags[t] !in PATTERNS[t]
    ensures Compose(flags) == Compose(map[])
    ensures Compose(flags) == Stack(BassOption1, DrumsOption1, HarmonyOption1, MelodyOption1)
  {
    TableShape();
    FragmentRule(flags, "bass");
    FragmentRule(flags, "drums");
    FragmentRule(flags, "harmony");
    FragmentRule(flags, "melody");
    FragmentRule(map[], "bass");
    FragmentRule(map[], "drums");
    FragmentRule(map[], "harmony");
    FragmentRule(map[], "melody");
  }

  /** Only the four track keys are read: flags that agree on them compose alike. */
  lemma ComposeReadsOnlyTrackKeys(f: Flags, g: Flags)
    requires forall t :: t in PATTERNS ==> (t in f <==> t in g) && (t in f ==> f[t] == g[t])
    ensures Compose(f) == Compose(g)
  {
    TableShape();
  }

  /** The expression as written reads only the four track keys too. */
  lemma ComposeAsWrittenReadsOnlyTrackKeys(f: Flags, g: Flags)
    requires forall t :: t in PATTERNS ==> (t in f <==> t in g) && (t in f ==> f[t] == g[t])
    ensures ComposeAsWritten(f) == ComposeAsWritten(g)
  {
    TableShape();
    FragmentAsWrittenReadsOnlyItsKey(f, g, "bass");
    FragmentAsWrittenReadsOnlyItsKey(f, g, "drums");
    FragmentAsWrittenReadsOnlyItsKey(f, g, "harmony");
    FragmentAsWrittenReadsOnlyItsKey(f, g, "melody");
  }

  /** One track's written fragment depends on the flags only through that track's key. */
  lemma FragmentAsWrittenReadsOnlyItsKey(f: Flags, g: Flags, track: string)
    requires track in PATTERNS && (track in f <==> track in g) && (track in f ==> f[track] == g[track])
    ensures FragmentAsWritten(f, track) == FragmentAsWritten(g, track)
  {
    assert PropertyKey(f, track) == PropertyKey(g, track);
  }

  lemma StackInjective(b: string, d: string, h: string, m: string, b': string, d': string, h': string, m': string)
    requires '\n' !in b && '\n' !in d && '\n' !in h && '\n' !in m
    requires '\n' !in b' && '\n' !in d' && '\n' !in h' && '\n' !in m'
    requires Stack(b, d, h, m) == Stack(b', d', h', m')
    ensures b == b' && d == d' && h == h' && m == m'
  {
    var tail := b + (Separator + (d + (Separator + (h + (Separator + (m + Close))))));
    var tail' := b' + (Separator + (d' + (Separator + (h' + (Separator + (m' + Close))))));
    assert tail == Stack(b, d, h, m)[|Open|..];
    assert tail' == Stack(b', d', h', m')[|Open|..];
    assert Separator[1] == '\n' && Close[0] == '\n';
    CutAtSeparator(b, b', Separator, d + (Separator + (h + (Separator + (m + Close)))),
                   d' + (Separator + (h' + (Separator + (m' + Close)))));
    CutAtSeparator(d, d', Separator, h + (Separator + (m + Close)), h' + (Separator + (m' + Close)));
    CutAtSeparator(h, h', Separator, m + Close, m' + Close);
    assert Close + "" == Close;
    CutAtSeparator(m, m', Close, "", "");
  }

  /** Within one track, equal fragments mean equal resolved options, and fragments are single lines. */
  lemma FragmentsMatchOptions(f: Flags, g: Flags, track: string)
    requires track in PATTERNS
    ensures '\n' !in Fragment(f, track) && '\n' !in Fragment(g, track)
    ensures Fragment(f, track) == Fragment(g, track) <==> ResolvedOption(f, track) == ResolvedOption(g, track)
  {
    FragmentRule(f, track);
    FragmentRule(g, track);
    TrackTable(track);
  }

  /** Two flag states produce the same expression exactly when every track resolves to the same option. */
  lemma ComposeDeterminedByResolution(f: Flags, g: Flags)
    ensures Compose(f) == Compose(g) <==>
      forall t :: t in PATTERNS ==> ResolvedOption(f, t) == ResolvedOption(g, t)
  {
    TableShape();
    FragmentsMatchOptions(f, g, "bass");
    FragmentsMatchOptions(f, g, "drums");
    FragmentsMatchOptions(f, g, "harmony");
    FragmentsMatchOptions(f, g, "melody");
    if Compose(f) == Compose(g) {
      StackInjective(Fragment(f, "bass"), Fragment(f, "drums"), Fragment(f, "harmony"), Fragment(f, "melody"),
                     Fragment(g, "bass"), Fragment(g, "drums"), Fragment(g, "harmony"), Fragment(g, "melody"));
      forall t | t in PATTERNS
        ensures ResolvedOption(f, t) == ResolvedOption(g, t)
      {
        assert t == "bass" || t == "drums" || t == "harmony" || t == "melody";
      }
    }
  }

  /** The bass fragment starts right after the opening text. */
  lemma StackStart(bass: string, drums: string, harmony: string, melody: string)
    requires bass != ""
    ensures |Stack(bass, drums, harmony, melody)| > |Open| && Stack(bass, drums, harmony, melody)[|Open|] == bass[0]
  {
  }

  /**
   * As written, a flag value naming a member every object inherits is not
   * "missing": `PATTERNS.bass["toString"]` is a function, so the option1 fallback
   * is skipped and its source text lands in the expression.
   */
  lemma AsWrittenInheritedMember()
    ensures "toString" !in PATTERNS["bass"]
    ensures ComposeAsWritten(map["bass" := "toString"]) != ComposeAsWritten(map[])
    ensures ComposeAsWritten(map["bass" := "toString"]) != Compose(map["bass" := "toString"])
  {
    var f: Flags := map["bass" := "toString"];
    BassLookups();
    InheritedBassFragment();
    FallbackBassFragments();
    StackStart(FragmentAsWritten(f, "bass"), FragmentAsWritten(f, "drums"),
               FragmentAsWritten(f, "harmony"), FragmentAsWritten(f, "melody"));
    StackStart(FragmentAsWritten(map[], "bass"), FragmentAsWritten(map[], "drums"),
               FragmentAsWritten(map[], "harmony"), FragmentAsWritten(map[], "melody"));
    StackStart(Fragment(f, "bass"), Fragment(f, "drums"), Fragment(f, "harmony"), Fragment(f, "melody"));
  }

  /** Looking up "toString" in the bass table finds the inherited member; "undefined" finds nothing. */
  lemma BassLookups()
    ensures "toString" !in PATTERNS["bass"]
    ensures GetProperty(PATTERNS["bass"], "toString") == Inherited("toString")
    ensures GetProperty(PATTERNS["bass"], "undefined") == Undefined
  {
    TrackTable("bass");
    UndefinedIsNoMember();
    assert "toString" !in OptionIds && "undefined" !in OptionIds;
    assert "toString" in ObjectPrototypeMembers;
  }

  /** With bass set to "toString" the bass fragment as written is the member's source text. */
  lemma InheritedBassFragment()
    ensures FragmentAsWritten(map["bass" := "toString"], "bass") == "function toString() { [native code] }"
  {
    InheritedBassLookup();
    ToStringSource();
  }

  lemma InheritedBassLookup()
    ensures FragmentAsWritten(map["bass" := "toString"], "bass") == Interpolate(Inherited("toString"))
  {
    var f: Flags := map["bass" := "toString"];
    assert PropertyKey(f, "bass") == "toString";
    BassLookups();
  }

  /** The text an inherited `toString` interpolates to. */
  lemma ToStringSource()
    ensures Interpolate(Inherited("toString")) == "function toString() { [native code] }"
  {
    assert "toString" != "__proto__" && "toString" != "constructor";
    assert Interpolate(Inherited("toString")) == NativePrefix + "toString" + NativeSuffix;
  }

  /** The bass option1 fragment, which the other readings fall back to, starts with `n`. */
  lemma FallbackBassFragments()
    ensures FragmentAsWritten(map[], "bass")[0] == 'n'
    ensures Fragment(map["bass" := "toString"], "bass")[0] == 'n'
  {
    BassLookups();
    assert PATTERNS["bass"]["option1"][0] == 'n';
  }

  /** No inherited member name is an option id. */
  lemma MembersAreNoOptions(n: string)
    requires n in ObjectPrototypeMembers
    ensures n !in OptionIds
  {
  }

  /** The text an inherited member interpolates to is a single line. */
  lemma InheritedTextSingleLine(n: string)
    requires n in ObjectPrototypeMembers
    ensures '\n' !in Interpolate(Inherited(n))
  {
    if n != "__proto__" && n != "constructor" {
      MemberNameSingleLine(n);
      NativeTextPieces();
      SingleLineJoin(NativePrefix, n, NativeSuffix);
    }
  }

  /** The fixed pieces of a native function's text hold no newline. */
  lemma NativeTextPieces()
    ensures '\n' !in NativePrefix && '\n' !in NativeSuffix
  {
  }

  lemma MemberNameSingleLine(n: string)
    requires n in ObjectPrototypeMembers
    ensures '\n' !in n
  {
    if n == "constructor" {
    } else if n == "hasOwnProperty" {
    } else if n == "isPrototypeOf" {
    } else if n == "propertyIsEnumerable" {
    } else if n == "toLocaleString" {
    } else if n == "toString" {
    } else if n == "valueOf" {
    } else if n == "__defineGetter__" {
    } else if n == "__defineSetter__" {
    } else if n == "__lookupGetter__" {
    } else if n == "__lookupSetter__" {
    } else {
      assert n == "__proto__";
    }
  }

  /**
   * For one track, the fragment as written is a single line, and it is the
   * corrected fragment exactly when the flag does not name an inherited member.
   */
  lemma FragmentAsWrittenIff(flags: Flags, track: string)
    requires track in PATTERNS
    ensures '\n' !in FragmentAsWritten(flags, track)
    ensures FragmentAsWritten(flags, track) == Fragment(flags, track) <==>
      !(track in flags && flags[track] in ObjectPrototypeMembers)
  {
    UndefinedIsNoMember();
    TrackTable(track);
    var key := PropertyKey(flags, track);
    if key in ObjectPrototypeMembers {
      MembersAreNoOptions(key);
      InheritedTextSingleLine(key);
      DefaultFragmentStart(track);
      assert FragmentAsWritten(flags, track) == Interpolate(Inherited(key));
      assert Fragment(flags, track) == PATTERNS[track][DefaultOption];
    }
  }

  /**
   * The expression as written is the corrected one exactly when no track's
   * flag names a member every object inherits.
   */
  lemma AsWrittenAgreesOnOrdinaryValues(flags: Flags)
    ensures ComposeAsWritten(flags) == Compose(flags) <==>
      forall t :: t in PATTERNS && t in flags ==> flags[t] !in ObjectPrototypeMembers
  {
    if ComposeAsWritten(flags) == Compose(flags) {
      TableShape();
      FragmentAsWrittenIff(flags, "bass");
      FragmentAsWrittenIff(flags, "drums");
      FragmentAsWrittenIff(flags, "harmony");
      FragmentAsWrittenIff(flags, "melody");
      FragmentsMatchOptions(flags, flags, "bass");
      FragmentsMatchOptions(flags, flags, "drums");
      FragmentsMatchOptions(flags, flags, "harmony");
      FragmentsMatchOptions(flags, flags, "melody");
      StackInjective(FragmentAsWritten(flags, "bass"), FragmentAsWritten(flags, "drums"),
                     FragmentAsWritten(flags, "harmony"), FragmentAsWritten(flags, "melody"),
                     Fragment(flags, "bass"), Fragment(flags, "drums"), Fragment(flags, "harmony"), Fragment(flags, "melody"));
      forall t | t in PATTERNS && t in flags
        ensures flags[t] !in ObjectPrototypeMembers
      {
        assert t == "bass" || t == "drums" || t == "harmony" || t == "melody";
      }
    }
  }

  // ---------------------------------------------------------------------------
  // The winning option shown per track

  /** `flags[track.id] || 'option1'`. */
  function CurrentOption(flags: Flags, trackId: string): (option: string)
    ensures option != ""
    ensures option == "option1" || (trackId in flags && option == flags[trackId])
  {
    if trackId in flags && flags[trackId] != "" then flags[trackId] else "option1"
  }

  /** The names of the k-th catalogue track's three options, which carry the ids option1..option3. */
  lemma CatalogueEntry(k: nat) returns (n1: string, n2: string, n3: string)
    requires k < |TRACKS|
    ensures TRACKS[k].id == Tracks[k] && TRACKS[k].options == ThreeOptions(n1, n2, n3)
  {
    var t := TRACKS[k];
    n1, n2, n3 := t.options[0].name, t.options[1].name, t.options[2].name;
  }

  /** Three options offer exactly the ids option1..option3. */
  lemma ThreeOptionsOffer(n1: string, n2: string, n3: string, o: string)
    ensures (exists i :: 0 <= i < |ThreeOptions(n1, n2, n3)| && ThreeOptions(n1, n2, n3)[i].id == o) <==> o in OptionIds
  {
    var opts := ThreeOptions(n1, n2, n3);
    if o in OptionIds {
      var i := if o == "option1" then 0 else if o == "option2" then 1 else 2;
      assert opts[i].id == o;
    }
  }

  /** A catalogue track offers exactly the option ids of its fragment table. */
  lemma OffersTableOptions(k: nat, o: string)
    requires k < |TRACKS|
    ensures TRACKS[k].id in PATTERNS && PATTERNS[TRACKS[k].id].Keys == OptionIds
    ensures (exists i :: 0 <= i < |TRACKS[k].options| && TRACKS[k].options[i].id == o) <==> o in OptionIds
  {
    var n1, n2, n3 := CatalogueEntry(k);
    ThreeOptionsOffer(n1, n2, n3, o);
    assert Tracks[k] in PATTERNS by { TableShape(); }
    TrackTable(Tracks[k]);
  }

  /** A shown option that the table knows is the option being played. */
  lemma KnownCurrentIsResolved(flags: Flags, track: string)
    requires track in PATTERNS && PATTERNS[track].Keys == OptionIds
    requires CurrentOption(flags, track) in OptionIds
    ensures ResolvedOption(flags, track) == CurrentOption(flags, track)
  {
    assert "" !in OptionIds;
  }

  /**
   * On every column of the catalogue a card is shown winning exactly when the
   * flag value is missing, empty or a known option, and a winning card is always
   * the option being played; a flag naming an unknown option shows no winner
   * while option1 plays.
   */
  lemma DisplayedWinnerIsPlayed(flags: Flags, k: nat)
    requires k < |TRACKS|
    ensures var t := TRACKS[k];
      var cards := TrackColumn.Cards(t.id, t.options, CurrentOption(flags, t.id));
      && t.id in PATTERNS
      && ((exists i :: 0 <= i < |cards| && cards[i].isWinning) <==>
          (t.id !in flags || flags[t.id] == "" || flags[t.id] in PATTERNS[t.id]))
      && (forall i :: 0 <= i < |cards| && cards[i].isWinning ==> t.options[i].id == ResolvedOption(flags, t.id))
  {
    var t := TRACKS[k];
    var cur := CurrentOption(flags, t.id);
    var cards := TrackColumn.Cards(t.id, t.options, cur);
    OffersTableOptions(k, cur);
    TrackColumn.SomeCardWinsIff(t.id, t.options, cur);
    forall i | 0 <= i < |cards| && cards[i].isWinning
      ensures t.options[i].id == ResolvedOption(flags, t.id)
    {
      TrackColumn.CardsAt(t.id, t.options, cur, i);
      KnownCurrentIsResolved(flags, t.id);
    }
  }

  // ---------------------------------------------------------------------------
  // Votes

  /** An event handed to the flag client's `track`: a metric key and its attributes. */
  datatype TrackEvent = TrackEvent(key: string, data: map<string, string>)

  /** The event `track('vote', { track, option })` hands to the flag client: a vote for `trackId` of `optionId`. */
  function VoteEvent(trackId: string, optionId: string): (e: TrackEvent)
    ensures IsVote(e) && VoteFor(e, trackId) && VotedOption(e) == optionId
    ensures forall t :: VoteFor(e, t) ==> t == trackId
  {
    TrackEvent("vote", map["track" := trackId, "option" := optionId])
  }

  predicate IsVote(e: TrackEvent)
  {
    e.key == "vote" && "track" in e.data && "option" in e.data
  }

  /** The event is a vote for `trackId`. */
  predicate VoteFor(e: TrackEvent, trackId: string)
  {
    IsVote(e) && e.data["track"] == trackId
  }

  function VotedOption(e: TrackEvent): string
    requires IsVote(e)
  {
    e.data["option"]
  }

  /** Some vote event of `events` votes for `optionId` on `trackId`. */
  predicate Cast(events: seq<TrackEvent>, trackId: string, optionId: string)
  {
    exists i :: 0 <= i < |events| && VoteFor(events[i], trackId) && VotedOption(events[i]) == optionId
  }

  /**
   * The last option voted per track, replaying the event log from the start.
   * Every recorded vote was cast: some vote event for that track carries it.
   */
  function LatestVotes(events: seq<TrackEvent>): (votes: map<string, string>)
    ensures forall t :: t in votes ==> Cast(events, t, votes[t])
  {
    if |events| == 0 then map[]
    else
      var e := events[|events| - 1];
      var before := LatestVotes(events[..|events| - 1]);
      if IsVote(e) then before[e.data["track"] := VotedOption(e)] else before
  }

  /** A track has a latest vote exactly when some vote event names it. */
  lemma LatestVotesDomain(events: seq<TrackEvent>, trackId: string)
    ensures trackId in LatestVotes(events) <==> exists i :: 0 <= i < |events| && VoteFor(events[i], trackId)
  {
    // A recorded vote was cast (the contract of LatestVotes); a cast vote is
    // recorded by the replay.
    if trackId in LatestVotes(events) {
      assert Cast(events, trackId, LatestVotes(events)[trackId]);
    }
    if i :| 0 <= i < |events| && VoteFor(events[i], trackId) {
      VoteIsRecorded(events, trackId, i);
    }
  }

  /** A vote event for a track leaves the track with a recorded vote. */
  lemma {:induction false} VoteIsRecorded(events: seq<TrackEvent>, trackId: string, i: nat)
    requires i < |events| && VoteFor(events[i], trackId)
    ensures trackId in LatestVotes(events)
  {
    var n := |events| - 1;
    LatestVotesStep(events, trackId);
    if i < n {
      assert events[..n][i] == events[i];
      VoteIsRecorded(events[..n], trackId, i);
    }
  }

  /** The last event decides a track's vote when it votes for that track, and leaves it alone otherwise. */
  lemma LatestVotesStep(events: seq<TrackEvent>, trackId: string)
    requires |events| > 0
    ensures var n := |events| - 1;
      if VoteFor(events[n], trackId) then
        trackId in LatestVotes(events) && LatestVotes(events)[trackId] == VotedOption(events[n])
      else
        (trackId in LatestVotes(events) <==> trackId in LatestVotes(events[..n]))
        && (trackId in LatestVotes(events) ==> LatestVotes(events)[trackId] == LatestVotes(events[..n])[trackId])
  {
  }

  /** The last vote for a track among all but the final event stays the last when the final event is no vote for it. */
  lemma LastVoteExtends(events: seq<TrackEvent>, init: seq<TrackEvent>, trackId: string, i: nat)
    requires |events| > 0 && init == events[..|events| - 1] && !VoteFor(events[|events| - 1], trackId)
    requires i < |init| && VoteFor(init[i], trackId)
    requires forall j :: i < j < |init| ==> !VoteFor(init[j], trackId)
    ensures VoteFor(events[i], trackId) && events[i] == init[i]
    ensures forall j :: i < j < |events| ==> !VoteFor(events[j], trackId)
  {
    forall j | i < j < |events| ensures !VoteFor(events[j], trackId) {
      if j < |init| {
        assert events[j] == init[j];
      }
    }
  }

  /** A track's latest vote is the option of the last vote event naming it. */
  lemma {:induction false} LatestVotesIsLastVote(events: seq<TrackEvent>, trackId: string)
    requires trackId in LatestVotes(events)
    ensures exists i ::
      && 0 <= i < |events| && VoteFor(events[i], trackId)
      && VotedOption(events[i]) == LatestVotes(events)[trackId]
      && forall j :: i < j < |events| ==> !VoteFor(events[j], trackId)
  {
    var n := |events| - 1;
    var init := events[..n];
    LatestVotesStep(events, trackId);
    if VoteFor(events[n], trackId) {
      assert VotedOption(events[n]) == LatestVotes(events)[trackId];
    } else {
      LatestVotesIsLastVote(init, trackId);
      var i :| 0 <= i < n && VoteFor(init[i], trackId) &&
        VotedOption(init[i]) == LatestVotes(init)[trackId] &&
        forall j :: i < j < n ==> !VoteFor(init[j], trackId);
      LastVoteExtends(events, init, trackId, i);
    }
  }

  /** The application's own state, with the flag client's event stream and the audio hook. */
  class App {
    /** `userVotes`: the option last voted per track. */
    var userVotes: map<string, string>
    /** Every event handed to the flag client's `track`. */
    var events: seq<TrackEvent>
    /** Whether `useLDClient()` has returned a client yet. */
    var clientReady: bool
    const player: Strudel.Player

    /** The recorded votes are the latest vote per track in the event stream. */
    ghost predicate Valid()
      reads this
    {
      userVotes == LatestVotes(events)
    }

    constructor (player: Strudel.Player)
      ensures userVotes == map[] && events == [] && !clientReady && this.player == player
      ensures Valid()
    {
      userVotes := map[];
      events := [];
      clientReady := false;
      this.player := player;
    }

    /** The flag client finished initialising. */
    method ClientInitialized()
      requires Valid()
      modifies this
      ensures Valid()
      ensures clientReady
      ensures userVotes == old(userVotes) && events == old(events)
    {
      clientReady := true;
    }

    /**
     * `handleVote`: one `vote` event with the track and option, then the vote
     * recorded for that track alone. Before the client exists, `ldClient.track`
     * throws and nothing changes (`ok` is false).
     */
    method HandleVote(trackId: string, optionId: string) returns (ok: bool)
      requires Valid()
      modifies this
      ensures Valid()
      ensures ok == clientReady && clientReady == old(clientReady)
      ensures ok ==> events == old(events) + [VoteEvent(trackId, optionId)]
      ensures ok ==> userVotes == old(userVotes)[trackId := optionId]
      ensures ok ==> forall t :: t != trackId ==> (t in userVotes <==> t in old(userVotes))
      ensures !ok ==> events == old(events) && userVotes == old(userVotes)
    {
      if !clientReady {
        return false;
      }
      var e := VoteEvent(trackId, optionId);
      events := events + [e];
      assert events[..|events| - 1] == old(events);
      userVotes := userVotes[trackId := optionId];
      ok := true;
    }

    /**
     * The composition effect: hand the expression for `flags` to the audio hook.
     * `evaluates` is whether the engine can evaluate that expression. The
     * expression is the corrected `Compose`, which agrees with the effect as
     * written except on inherited member names (`AsWrittenAgreesOnOrdinaryValues`).
     */
    method FlagsChanged(flags: Flags, evaluates: bool)
      modifies player
      ensures player.isPlaying == old(player.isPlaying) && player.hasScheduler == old(player.hasScheduler)
      ensures player.commands ==
        if old(player.hasScheduler) && evaluates then old(player.commands) + [Strudel.SetPattern(Compose(flags))]
        else old(player.commands)
      ensures old(player.hasScheduler) && evaluates ==> Strudel.ActivePattern(player.commands) == Some(Compose(flags))
      ensures old(player.InSync()) ==> player.InSync()
    {
      player.UpdatePattern(Compose(flags), evaluates);
    }
  }
}
