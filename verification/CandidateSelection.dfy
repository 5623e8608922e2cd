/** Numbered options: how they are displayed, remembered, and chosen by what the user types back. */
module CandidateSelection {
  import opened Base
  import opened Types

  // ---- displaying and remembering --------------------------------------------------------

  datatype ResponseOption = ResponseOption(caption: string, value: string)

  /** The text an option is shown under: its label, or else its value. */
  function Caption(o: ResponseOption): string {
    if Trim(o.caption) != "" then Trim(o.caption) else Trim(o.value)
  }

  /** The labels `renderProtocolResponse` numbers: options with nothing to show are left out. */
  function Labels(options: seq<ResponseOption>): seq<string> {
    if options == [] then []
    else
      var last := Caption(options[|options| - 1]);
      Labels(options[..|options| - 1]) + if last == "" then [] else [last]
  }

  /** `persistWorkflowCandidatesFromResponse`. */
  function Remembered(options: seq<ResponseOption>, tenantID: nat): seq<Candidate> {
    if options == [] then []
    else
      var o := options[|options| - 1];
      Remembered(options[..|options| - 1], tenantID)
      + if Trim(o.value) == "" && Trim(o.caption) == "" then []
        else [Candidate(Trim(o.value), Caption(o), Str(Trim(o.value)), tenantID)]
  }

  method CollectLabels(options: seq<ResponseOption>) returns (labels: seq<string>)
    ensures labels == Labels(options)
  {
    labels := [];
    for i := 0 to |options|
      invariant labels == Labels(options[..i])
    {
      assert options[..i + 1][..i] == options[..i];
      var caption := Trim(options[i].caption);
      if caption == "" { caption := Trim(options[i].value); }
      if caption != "" { labels := labels + [caption]; }
    }
    assert options[..|options|] == options;
  }

  method RememberCandidates(options: seq<ResponseOption>, tenantID: nat) returns (candidates: seq<Candidate>)
    ensures candidates == Remembered(options, tenantID)
  {
    candidates := [];
    for i := 0 to |options|
      invariant candidates == Remembered(options[..i], tenantID)
    {
      assert options[..i + 1][..i] == options[..i];
      var id, caption := Trim(options[i].value), Trim(options[i].caption);
      if id != "" || caption != "" {
        candidates := candidates + [Candidate(id, if caption != "" then caption else id, Str(id), tenantID)];
      }
    }
    assert options[..|options|] == options;
  }

  /** What is displayed at a place is what is remembered at that place. */
  lemma {:induction false} DisplayedIsRemembered(options: seq<ResponseOption>, tenantID: nat)
    ensures |Remembered(options, tenantID)| == |Labels(options)|
    ensures forall i | 0 <= i < |Labels(options)| ::
              var c := Remembered(options, tenantID)[i];
              c.caption == Labels(options)[i] && Trimmed(c.caption) && c.caption != "" && c.tenantID == tenantID
  {
    if options != [] {
      var rest, o := options[..|options| - 1], options[|options| - 1];
      DisplayedIsRemembered(rest, tenantID);
      TrimIsTrimmed(o.caption);
      TrimIsTrimmed(o.value);
    }
  }

  // ---- numerals -------------------------------------------------------------------------------

  function Numeral(n: nat): string {
    if n < 10 then [('0' as int + n) as char] else Numeral(n / 10) + [('0' as int + n % 10) as char]
  }

  lemma {:induction false} NumeralRoundTrip(n: nat)
    ensures Numeral(n) != "" && Digits(Numeral(n)) && Decimal(Numeral(n)) == n
  {
    var s := Numeral(n);
    if n >= 10 {
      NumeralRoundTrip(n / 10);
      assert s[..|s| - 1] == Numeral(n / 10);
    } else {
      assert s[..|s| - 1] == "";
    }
  }

  /** `strconv.Atoi`, with an optional sign. */
  function Atoi(s: string): Option<int> {
    if s != "" && Digits(s) then Some(Decimal(s))
    else if |s| > 1 && s[0] == '+' && Digits(s[1..]) then Some(Decimal(s[1..]))
    else if |s| > 1 && s[0] == '-' && Digits(s[1..]) then Some(0 - Decimal(s[1..]))
    else None
  }

  function ChineseDigit(c: char): Option<nat> {
    match c
    case '一' => Some(1) case '二' => Some(2) case '三' => Some(3) case '四' => Some(4) case '五' => Some(5)
    case '六' => Some(6) case '七' => Some(7) case '八' => Some(8) case '九' => Some(9) case _ => None
  }

  function Count(s: string, c: char): nat {
    if s == "" then 0 else (if s[0] == c then 1 else 0) + Count(s[1..], c)
  }

  function IndexOf(s: string, c: char): (i: nat)
    ensures i <= |s|
  {
    if s == "" || s[0] == c then 0 else 1 + IndexOf(s[1..], c)
  }

  /** `parseChinesePositiveInt`: one digit, or tens and ones around a single ten sign, each read by its first character. */
  function ChineseNumber(s: string): Option<nat> {
    if s == "十" then Some(10)
    else if |s| == 1 then ChineseDigit(s[0])
    else if Count(s, '十') != 1 || IndexOf(s, '十') == |s| then None
    else
      var head, tail := s[..IndexOf(s, '十')], s[IndexOf(s, '十') + 1..];
      var tens := if head == "" then Some(1) else ChineseDigit(head[0]);
      var ones := if tail == "" then Some(0) else ChineseDigit(tail[0]);
      match (tens, ones)
      case (Some(t), Some(u)) => if t * 10 + u > 0 then Some(t * 10 + u) else None
      case _ => None
  }

  // ---- reading an ordinal ------------------------------------------------------------------------

  predicate Ignored(c: char) {
    c in {' ', '\t', '\n', '\r', '，', '。', '？', '！', ',', '.', '?', '!'}
  }

  function Lower(c: char): char { if 'A' <= c <= 'Z' then (c as int + 32) as char else c }

  function Squeezed(s: string): string {
    if s == "" then "" else (if Ignored(s[0]) then "" else [Lower(s[0])]) + Squeezed(s[1..])
  }

  /** `normalizeQuery`. */
  function NormalizedQuery(s: string): string { Squeezed(Trim(s)) }

  function WithoutFirst(s: string, c: char): string { if s != "" && s[0] == c then s[1..] else s }

  function WithoutLast(s: string, c: char): string { if s != "" && s[|s| - 1] == c then s[..|s| - 1] else s }

  /** The words around an ordinal are dropped: "选择", "选" and "第" before it, "个", "项" and "号" after it. */
  function Unwrapped(s: string): string {
    var chosen := if |s| >= 2 && s[0] == '选' && s[1] == '择' then s[2..] else s;
    var bare := WithoutFirst(WithoutFirst(chosen, '选'), '第');
    WithoutLast(WithoutLast(WithoutLast(bare, '个'), '项'), '号')
  }

  function PositiveNumber(text: string): (r: Option<nat>)
    ensures r.Some? ==> r.value > 0
  {
    if Atoi(text).Some? && Atoi(text).value > 0 then Some(Atoi(text).value)
    else if ChineseNumber(text).Some? && ChineseNumber(text).value > 0 then ChineseNumber(text)
    else None
  }

  /** `parseCandidateOrdinal`. */
  function Ordinal(message: string): (r: Option<nat>)
    ensures r.Some? ==> r.value > 0
  {
    PositiveNumber(Unwrapped(NormalizedQuery(message)))
  }

  predicate Separator(c: char) { c in {'.', '、', ':', '：', ')'} }

  function FirstSeparator(s: string): (i: nat)
    ensures i <= |s| && (i < |s| ==> Separator(s[i])) && forall j | 0 <= j < i :: !Separator(s[j])
  {
    if s == "" || Separator(s[0]) then 0 else 1 + FirstSeparator(s[1..])
  }

  /** `parseRenderedCandidateSelection`: an ordinal before the first separator, a label after it. */
  function Rendered(message: string): (r: Option<(nat, string)>)
    ensures r.Some? ==> r.value.0 > 0
  {
    var text := Trim(message);
    var at := FirstSeparator(text);
    if at == |text| then None
    else match Ordinal(Trim(text[..at]))
      case None => None
      case Some(ordinal) => Some((ordinal, Trim(text[at + 1..])))
  }

  // ---- choosing --------------------------------------------------------------------------------------

  /** `normalizeEntityName`; the results hold for every way to normalise names. */
  type Normalizer = string -> string

  const COMMANDS: seq<string> := ["就选", "选择", "选", "就", "要"]

  /** `entityNameVariants`: the normalised text, and what is left of it after a leading command. */
  function Variants(norm: Normalizer, text: string): seq<string> {
    if norm(text) == "" then [] else [norm(text)] + Stripped(norm(text), COMMANDS)
  }

  function Stripped(text: string, commands: seq<string>): seq<string> {
    if commands == [] then []
    else (if commands[0] < text then [text[|commands[0]|..]] else []) + Stripped(text, commands[1..])
  }

  datatype Refusal = OutOfRange | LabelMismatch | TenantMismatch

  datatype SelectionResult = NotFound | Rejected(reason: Refusal) | Selected(index: nat)

  /** The first candidate whose whole label is this text. */
  function Labelled(norm: Normalizer, cs: seq<Candidate>, text: string): (r: Option<nat>)
    ensures r.Some? ==> r.value < |cs| && norm(cs[r.value].caption) == text
    ensures r.None? ==> forall i | 0 <= i < |cs| :: norm(cs[i].caption) != text
  {
    if cs == [] then None
    else if norm(cs[0].caption) == text then Some(0)
    else match Labelled(norm, cs[1..], text) case None => None case Some(i) => Some(i + 1)
  }

  function FullLabelIn(norm: Normalizer, cs: seq<Candidate>, variants: seq<string>): (r: Option<nat>)
    ensures r.Some? ==> r.value < |cs| && norm(cs[r.value].caption) in variants
  {
    if variants == [] then None
    else match Labelled(norm, cs, variants[0])
      case Some(i) => Some(i)
      case None => FullLabelIn(norm, cs, variants[1..])
  }

  /** The candidate the message names in full, if any. */
  function FullLabel(norm: Normalizer, cs: seq<Candidate>, message: string): (r: Option<nat>)
    ensures r.Some? ==> r.value < |cs| && norm(cs[r.value].caption) in Variants(norm, message)
  {
    FullLabelIn(norm, cs, Variants(norm, message))
  }

  method FindFullLabel(norm: Normalizer, cs: seq<Candidate>, message: string) returns (found: Option<nat>)
    ensures found == FullLabel(norm, cs, message)
  {
    var variants := Variants(norm, message);
    for v := 0 to |variants|
      invariant FullLabelIn(norm, cs, variants) == FullLabelIn(norm, cs, variants[v..])
    {
      assert variants[v..][0] == variants[v] && variants[v..][1..] == variants[v + 1..];
      for i := 0 to |cs|
        invariant Labelled(norm, cs, variants[v]) ==
                  match Labelled(norm, cs[i..], variants[v]) case None => None case Some(k) => Some(i + k)
      {
        assert cs[i..][0] == cs[i] && cs[i..][1..] == cs[i + 1..];
        if norm(cs[i].caption) == variants[v] { return Some(i); }
      }
      assert cs[|cs|..] == [];
    }
    assert variants[|variants|..] == [];
    found := None;
  }

  /** `validateCandidateTenant`. */
  function ForTenant(cs: seq<Candidate>, index: nat, tenantID: nat): SelectionResult
    requires index < |cs|
  {
    if tenantID != 0 && cs[index].tenantID != tenantID then Rejected(TenantMismatch) else Selected(index)
  }

  /** The decision, once the message is read: a candidate named in full, a rendered line, a bare ordinal. */
  function Decided(
    norm: Normalizer, cs: seq<Candidate>, tenantID: nat,
    named: Option<nat>, rendered: Option<(nat, string)>, ordinal: Option<nat>): SelectionResult
    requires named.Some? ==> named.value < |cs|
    requires rendered.Some? ==> rendered.value.0 > 0
    requires ordinal.Some? ==> ordinal.value > 0
  {
    match rendered
    case Some((number, rest)) =>
      if number > |cs| then (if named.Some? then ForTenant(cs, named.value, tenantID) else Rejected(OutOfRange))
      else if named.Some? then
        (if named.value != number - 1 then Rejected(LabelMismatch) else ForTenant(cs, number - 1, tenantID))
      else if rest != "" && norm(cs[number - 1].caption) !in Variants(norm, rest) then Rejected(LabelMismatch)
      else ForTenant(cs, number - 1, tenantID)
    case None =>
      match ordinal
      case Some(number) => if number > |cs| then Rejected(OutOfRange) else ForTenant(cs, number - 1, tenantID)
      case None => if named.Some? then ForTenant(cs, named.value, tenantID) else NotFound
  }

  /** `resolveCandidateSelection`. */
  function Resolved(norm: Normalizer, message: string, cs: seq<Candidate>, tenantID: nat): SelectionResult {
    Decided(norm, cs, tenantID, FullLabel(norm, cs, message), Rendered(message), Ordinal(message))
  }

  lemma DecisionsAreMembers(
    norm: Normalizer, cs: seq<Candidate>, tenantID: nat,
    named: Option<nat>, rendered: Option<(nat, string)>, ordinal: Option<nat>)
    requires named.Some? ==> named.value < |cs|
    requires rendered.Some? ==> rendered.value.0 > 0
    requires ordinal.Some? ==> ordinal.value > 0
    ensures var r := Decided(norm, cs, tenantID, named, rendered, ordinal);
            r.Selected? ==> r.index < |cs| && (tenantID == 0 || cs[r.index].tenantID == tenantID)
  {
  }

  /** Whatever is typed, a selection is a member of the list and belongs to the caller's tenant. */
  lemma SelectionsAreMembers(norm: Normalizer, message: string, cs: seq<Candidate>, tenantID: nat)
    ensures var r := Resolved(norm, message, cs, tenantID);
            r.Selected? ==> r.index < |cs| && (tenantID == 0 || cs[r.index].tenantID == tenantID)
  {
    DecisionsAreMembers(norm, cs, tenantID, FullLabel(norm, cs, message), Rendered(message), Ordinal(message));
  }

  // ---- echoing what was displayed -------------------------------------------------------------------

  /** A displayed line: `renderNumberedOptions`. */
  function Line(ordinal: nat, caption: string): string { Numeral(ordinal) + (". " + caption) }

  lemma {:induction false} DigitsSqueeze(s: string)
    requires Digits(s)
    ensures Squeezed(s) == s
  {
    if s != "" {
      assert Digits(s[1..]) by {
        assert forall i | 0 <= i < |s[1..]| :: s[1..][i] == s[i + 1];
      }
      DigitsSqueeze(s[1..]);
      assert '0' <= s[0] <= '9';
      assert s == [s[0]] + s[1..];
    }
  }

  lemma DigitsAreTrimmed(s: string)
    requires s != "" && Digits(s)
    ensures Trimmed(s) && Trim(s) == s && Unwrapped(s) == s
  {
  }

  lemma DigitsAreOrdinal(s: string)
    requires s != "" && Digits(s) && Decimal(s) > 0
    ensures Ordinal(s) == Some(Decimal(s))
  {
    DigitsAreTrimmed(s);
    DigitsSqueeze(s);
  }

  /** A numeral is read as the number it writes. */
  lemma NumeralIsOrdinal(n: nat)
    requires n > 0
    ensures Trimmed(Numeral(n)) && Trim(Numeral(n)) == Numeral(n) && Ordinal(Numeral(n)) == Some(n)
  {
    NumeralRoundTrip(n);
    DigitsAreTrimmed(Numeral(n));
    DigitsAreOrdinal(Numeral(n));
  }

  lemma DigitsAreNotSeparators(s: string)
    requires Digits(s)
    ensures FirstSeparator(s) == |s|
  {
  }

  lemma TrimPadded(s: string)
    requires Trimmed(s)
    ensures Trim(" " + s) == s
  {
    assert (" " + s)[1..] == s;
    TrimIsTrimmed(s);
    TrimLeftEnds(s);
    assert s == "" || !IsSpace(s[0]);
  }

  lemma LineSplits(number: string, caption: string)
    requires number != "" && Digits(number) && Trimmed(caption) && caption != ""
    ensures var line := number + (". " + caption);
            && Trim(line) == line && FirstSeparator(line) == |number| && |number| < |line|
            && line[..|number|] == number && line[|number| + 1..] == " " + caption
  {
    var line := number + (". " + caption);
    assert line[0] == number[0] && '0' <= number[0] <= '9';
    assert line[|line| - 1] == caption[|caption| - 1];
    TrimIsTrimmed(line);
    assert line[|number|] == '.';
    forall j | 0 <= j < |number| ensures !Separator(line[j]) { assert line[j] == number[j] && '0' <= number[j] <= '9'; }
  }

  /** A displayed line is read back as its number and its label. */
  lemma LineIsRendered(ordinal: nat, caption: string)
    requires ordinal > 0 && Trimmed(caption) && caption != ""
    ensures Rendered(Line(ordinal, caption)) == Some((ordinal, caption))
  {
    NumeralRoundTrip(ordinal);
    NumeralIsOrdinal(ordinal);
    LineSplits(Numeral(ordinal), caption);
    TrimPadded(caption);
  }

  lemma BareNumberIsNotRendered(n: nat)
    requires n > 0
    ensures Rendered(Numeral(n)) == None
  {
    NumeralIsOrdinal(n);
    NumeralRoundTrip(n);
    DigitsAreNotSeparators(Numeral(n));
  }

  /** Typing the bare number of a displayed line selects that candidate, always, up to the tenant check. */
  lemma BareNumberSelects(norm: Normalizer, cs: seq<Candidate>, i: nat, tenantID: nat)
    requires i < |cs|
    ensures Resolved(norm, Numeral(i + 1), cs, tenantID) == ForTenant(cs, i, tenantID)
  {
    NumeralIsOrdinal(i + 1);
    BareNumberIsNotRendered(i + 1);
  }

  /** Echoing the i-th displayed line selects the i-th candidate exactly when the line names no other candidate in full, and names this one or at least has a label that does not normalise to nothing. */
  lemma EchoedLineSelects(norm: Normalizer, cs: seq<Candidate>, i: nat, tenantID: nat)
    requires i < |cs| && Trimmed(cs[i].caption) && cs[i].caption != ""
    requires tenantID == 0 || cs[i].tenantID == tenantID
    ensures var line := Line(i + 1, cs[i].caption);
            Resolved(norm, line, cs, tenantID) == Selected(i)
            <==> match FullLabel(norm, cs, line)
                 case Some(k) => k == i
                 case None => norm(cs[i].caption) != ""
  {
    LineIsRendered(i + 1, cs[i].caption);
    var line := Line(i + 1, cs[i].caption);
    RenderedDecides(norm, cs, i, tenantID, FullLabel(norm, cs, line), Ordinal(line));
  }

  lemma RenderedDecides(norm: Normalizer, cs: seq<Candidate>, i: nat, tenantID: nat, named: Option<nat>, ordinal: Option<nat>)
    requires i < |cs| && cs[i].caption != "" && (tenantID == 0 || cs[i].tenantID == tenantID)
    requires (named.Some? ==> named.value < |cs|) && (ordinal.Some? ==> ordinal.value > 0)
    ensures Decided(norm, cs, tenantID, named, Some((i + 1, cs[i].caption)), ordinal) == Selected(i)
            <==> match named case Some(k) => k == i case None => norm(cs[i].caption) != ""
  {
  }

  /** In the caller's terms: labels that do not normalise to nothing, and no other whole label that reads like the line. */
  lemma EchoingSelectsTheDisplayedOption(
    norm: Normalizer, options: seq<ResponseOption>, tenantID: nat, i: nat)
    requires i < |Labels(options)| && norm(Labels(options)[i]) != ""
    requires forall j | 0 <= j < |Labels(options)| && j != i ::
               norm(Labels(options)[j]) !in Variants(norm, Line(i + 1, Labels(options)[i]))
    ensures |Remembered(options, tenantID)| == |Labels(options)|
    ensures Resolved(norm, Line(i + 1, Labels(options)[i]), Remembered(options, tenantID), tenantID) == Selected(i)
    ensures Resolved(norm, Numeral(i + 1), Remembered(options, tenantID), tenantID) == Selected(i)
  {
    DisplayedIsRemembered(options, tenantID);
    var cs := Remembered(options, tenantID);
    EchoedLineSelects(norm, cs, i, tenantID);
    BareNumberSelects(norm, cs, i, tenantID);
    assert forall j | 0 <= j < |cs| && j != i :: norm(cs[j].caption) == norm(Labels(options)[j]);
  }
}
