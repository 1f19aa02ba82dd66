/**
 How a KPI card presents its delta: the sign rule of the percentage text and
 the colour of the delta line, plus the colour classes of the event badges.
 The digits themselves come from the host's fixed-point rendering and enter
 here as a parameter.
 */
module Formatting {
  import opened DashboardTypes
  import opened ClassNames

  /** The sign put in front of a percentage: "+" for a strictly positive
      value and nothing otherwise (a negative value brings its own "-"). */
  function SignPrefix(value: real): (sign: string)
    ensures sign == "+" <==> value > 0.0
    ensures sign == "" <==> value <= 0.0
  {
    if value > 0.0 then "+" else ""
  }

  /** The percentage text of a value whose fixed-point rendering is `fixed`:
      the sign, the digits unchanged, then "%". */
  function FormatPct(value: real, fixed: string): (text: string)
    ensures |text| == |SignPrefix(value)| + |fixed| + 1
    ensures text[|text| - 1] == '%'
    ensures text[|text| - 1 - |fixed|..|text| - 1] == fixed
    ensures (|fixed| == 0 || fixed[0] != '+') ==> (text[0] == '+' <==> value > 0.0)
  {
    SignPrefix(value) + fixed + "%"
  }

  /** The two colours of a delta line. */
  datatype Tone = Emerald | Rose

  function ToneClass(t: Tone): string {
    match t
    case Emerald => "text-emerald-600"
    case Rose => "text-rose-600"
  }

  /** The colour rule `(delta ?? 0) >= 0`: a missing delta counts as zero. */
  function DeltaTone(delta: Option<real>): (t: Tone)
    ensures delta.Some? ==> (t == Emerald <==> delta.value >= 0.0)
    ensures delta.None? ==> t == Emerald
  {
    if delta.GetOr(0.0) >= 0.0 then Emerald else Rose
  }

  /** The delta line of a card: shown only when the card has a delta, in the
      colour the delta's sign picks. */
  function CardDeltaTone(k: Kpi): (t: Option<Tone>)
    ensures t.Some? <==> k.delta.Some?
    ensures t.Some? ==> (t.value == Emerald <==> k.delta.value >= 0.0)
  {
    if k.delta.Some? then Some(DeltaTone(k.delta)) else None
  }

  /** The class string of a delta line: the shape classes and the tone's
      colour class, one space apart. */
  function DeltaLineClass(t: Tone): (c: string)
    ensures c == "mt-1 text-xs" + " " + ToneClass(t)
  {
    DeltaLineEntriesKept(t);
    Cn([Str("mt-1 text-xs"), Str(ToneClass(t))])
  }

  /** Both entries of the delta line's `cn` call survive the filter. */
  lemma DeltaLineEntriesKept(t: Tone)
    ensures var args := [Str("mt-1 text-xs"), Str(ToneClass(t))];
      Kept(args) == ["mt-1 text-xs", ToneClass(t)]
      && Cn(args) == "mt-1 text-xs" + " " + ToneClass(t)
  {
    KeptPair("mt-1 text-xs", ToneClass(t));
    CnOfTwoKept([Str("mt-1 text-xs"), Str(ToneClass(t))], "mt-1 text-xs", ToneClass(t));
  }

  /** The delta line's class string reads as three classes: the two shape
      classes of its multi-class first entry, then the tone class. */
  lemma DeltaLineWords(t: Tone)
    ensures Split(DeltaLineClass(t)) == ["mt-1", "text-xs", ToneClass(t)]
  {
    CnPairWords("mt-1 text-xs", ToneClass(t));
    ShapeWords();
    ToneWords(t);
  }

  lemma ShapeWords()
    ensures Split("mt-1 text-xs") == ["mt-1", "text-xs"]
  {
    assert "mt-1 text-xs" == "mt-1" + " " + "text-xs";
    TwoWords("mt-1", "text-xs");
  }

  lemma ToneWords(t: Tone)
    ensures Split(ToneClass(t)) == [ToneClass(t)]
  {
    SplitWord(ToneClass(t), "");
  }

  /** Whether an event moved its KPI the right way, the wrong way, or neither. */
  datatype Impact = Positive | Negative | Neutral

  /** The colour classes of each impact's badge. */
  function ImpactColours(i: Impact): string {
    match i
    case Positive => "bg-emerald-50 text-emerald-700"
    case Negative => "bg-rose-50 text-rose-700"
    case Neutral => "bg-slate-100 text-slate-700"
  }

  /** The arguments of the badge's `cn` call: the shape classes followed by
      one `&&` guarded colour entry per impact. */
  function ImpactBadgeArgs(i: Impact): seq<ClassArg> {
    [
      Str("text-xs rounded-full px-2 py-1"),
      if i == Positive then Str("bg-emerald-50 text-emerald-700") else False,
      if i == Negative then Str("bg-rose-50 text-rose-700") else False,
      if i == Neutral then Str("bg-slate-100 text-slate-700") else False
    ]
  }

  /** The badge class string: the shape classes and, of the three guarded
      colour entries, only the one matching the impact. */
  function ImpactBadgeClass(i: Impact): (c: string)
    ensures c == "text-xs rounded-full px-2 py-1" + " " + ImpactColours(i)
  {
    ImpactBadgeEntriesKept(i);
    Cn(ImpactBadgeArgs(i))
  }

  /** Exactly the shape classes and the matching colour entry survive the
      filter of the badge's `cn` call. */
  lemma ImpactBadgeEntriesKept(i: Impact)
    ensures Kept(ImpactBadgeArgs(i)) == ["text-xs rounded-full px-2 py-1", ImpactColours(i)]
    ensures Cn(ImpactBadgeArgs(i)) == "text-xs rounded-full px-2 py-1" + " " + ImpactColours(i)
  {
    var args := ImpactBadgeArgs(i);
    assert args[1..][1..] == args[2..];
    assert args[2..][1..] == args[3..];
    assert args[3..][1..] == [];
    assert Kept(args[3..]) == (if i == Neutral then [ImpactColours(i)] else []);
    assert Kept(args[2..]) == (if i != Positive then [ImpactColours(i)] else []);
    assert Kept(args[1..]) == [ImpactColours(i)];
    CnOfTwoKept(args, "text-xs rounded-full px-2 py-1", ImpactColours(i));
  }

  /** A zero delta is coloured as growth but printed without a "+". */
  lemma ZeroDeltaEmeraldWithoutPlus()
    ensures DeltaTone(Some(0.0)) == Emerald && SignPrefix(0.0) == ""
  {
  }
}
