/**
 * The fixed question script of the medical-history intake: the question
 * keys and their order, the successor function, and the two renditions of a
 * user's answers (the text handed to the assistant and the field map handed
 * to the report renderer).
 */
module Script {
  import opened Wrappers

  /** The keys of the question dictionary. */
  datatype Key =
    | Start | Dni | Edad | Operaciones | Alergias
    | EnfermedadesCronicas | MedicamentosActuales | Finish

  /** The key as the service spells it. */
  function Name(k: Key): string {
    match k
    case Start => "start"
    case Dni => "dni"
    case Edad => "edad"
    case Operaciones => "operaciones"
    case Alergias => "alergias"
    case EnfermedadesCronicas => "enfermedades_cronicas"
    case MedicamentosActuales => "medicamentos_actuales"
    case Finish => "finish"
  }

  /** The order in which the flow visits the keys (`state_order`). */
  const Order: seq<Key> :=
    [Start, Dni, Edad, Operaciones, Alergias, EnfermedadesCronicas, MedicamentosActuales, Finish]

  /** The placeholder for a key the user has not answered. */
  const NotProvided: string := "Not provided"

  /** The list holds every key exactly once. */
  lemma OrderLists()
    ensures forall k: Key :: k in Order
    ensures forall i, j :: 0 <= i < j < |Order| ==> Order[i] != Order[j]
  {
    forall k: Key ensures k in Order {
      match k
      case Start => assert Order[0] == k;
      case Dni => assert Order[1] == k;
      case Edad => assert Order[2] == k;
      case Operaciones => assert Order[3] == k;
      case Alergias => assert Order[4] == k;
      case EnfermedadesCronicas => assert Order[5] == k;
      case MedicamentosActuales => assert Order[6] == k;
      case Finish => assert Order[7] == k;
    }
  }

  /** Different keys are spelt differently, and no spelling is empty. */
  lemma NameInjective()
    ensures forall a: Key, b: Key :: Name(a) == Name(b) ==> a == b
    ensures forall k: Key :: Name(k) != ""
  {
    forall a: Key, b: Key | Name(a) == Name(b) ensures a == b {
      assert Name(a)[0] == Name(b)[0] && |Name(a)| == |Name(b)|;
    }
  }

  /**
   * `get_next_question`: the key after `k` in the list, or `None` for the
   * last key (the IndexError case).
   */
  function NextQuestion(k: Key): (r: Option<Key>)
    ensures r.None? <==> k == Finish
    ensures r.Some? ==> r.value != Start
  {
    match k
    case Start => Some(Dni)
    case Dni => Some(Edad)
    case Edad => Some(Operaciones)
    case Operaciones => Some(Alergias)
    case Alergias => Some(EnfermedadesCronicas)
    case EnfermedadesCronicas => Some(MedicamentosActuales)
    case MedicamentosActuales => Some(Finish)
    case Finish => None
  }

  /**
   * The successor is the list's next entry: `state_order[index(k) + 1]`,
   * with nothing after the last entry.
   */
  lemma NextQuestionFollowsOrder()
    ensures forall i :: 0 <= i < |Order| - 1 ==> NextQuestion(Order[i]) == Some(Order[i + 1])
    ensures NextQuestion(Order[|Order| - 1]) == None
  {
  }

  /** The answer a user gave for `k`, or the placeholder. */
  function Field(answers: map<Key, string>, k: Key): string {
    if k in answers then answers[k] else NotProvided
  }

  /** One `key: value` line of the assistant's context text. */
  function Line(k: string, v: string): string {
    k + ": " + v + "\n"
  }

  /** The (key, value) pairs the context text lists for `keys`. */
  function Pairs(keys: seq<Key>, answers: map<Key, string>): (r: seq<(string, string)>)
    ensures |r| == |keys|
    ensures forall i :: 0 <= i < |keys| ==> r[i] == (Name(keys[i]), Field(answers, keys[i]))
  {
    if keys == [] then [] else [(Name(keys[0]), Field(answers, keys[0]))] + Pairs(keys[1..], answers)
  }

  /** The lines of a list of pairs, one after another. */
  function Text(pairs: seq<(string, string)>): string {
    if pairs == [] then "" else Line(pairs[0].0, pairs[0].1) + Text(pairs[1..])
  }

  /** `format_responses`: one line per key, in list order. */
  function FormatResponses(answers: map<Key, string>): string {
    Text(Pairs(Order, answers))
  }

  /**
   * The field map `prepare_summary` hands to the report renderer, written
   * out key by key as the source writes it.
   */
  function SummaryFields(answers: map<Key, string>): map<Key, string> {
    map[Start := Field(answers, Start), Dni := Field(answers, Dni), Edad := Field(answers, Edad),
        Operaciones := Field(answers, Operaciones), Alergias := Field(answers, Alergias),
        EnfermedadesCronicas := Field(answers, EnfermedadesCronicas),
        MedicamentosActuales := Field(answers, MedicamentosActuales), Finish := Field(answers, Finish)]
  }

  /**
   * The report's field map has one entry per key, eight in all, each the
   * user's answer or the placeholder.
   */
  lemma SummaryFieldsComplete(answers: map<Key, string>)
    ensures forall k: Key :: k in SummaryFields(answers) && SummaryFields(answers)[k] == Field(answers, k)
    ensures SummaryFields(answers).Keys == set k | k in Order
    ensures |SummaryFields(answers)| == 8
  {
    var r := SummaryFields(answers);
    forall k: Key ensures k in r && r[k] == Field(answers, k) {
      match k
      case Start =>
      case Dni =>
      case Edad =>
      case Operaciones =>
      case Alergias =>
      case EnfermedadesCronicas =>
      case MedicamentosActuales =>
      case Finish =>
    }
    OrderLists();
    DistinctElements(Order);
    assert r.Keys == set k | k in Order;
  }

  /** A sequence without repetitions has as many distinct elements as it is long. */
  lemma {:induction false} DistinctElements<T>(s: seq<T>)
    requires forall i, j :: 0 <= i < j < |s| ==> s[i] != s[j]
    ensures |set x | x in s| == |s|
  {
    if s != [] {
      DistinctElements(s[1..]);
      var rest := set x | x in s[1..];
      assert (set x | x in s) == {s[0]} + rest;
      assert s[0] !in rest;
    }
  }

  // ---------------------------------------------------------------------
  // Reading the assistant's context text back: the partner of FormatResponses.
  // ---------------------------------------------------------------------

  /** The first position of `k` in `s`, or `None`: how the reader finds separators. */
  function IndexOf<T(==)>(s: seq<T>, k: T): (r: Option<nat>)
    ensures r.Some? ==> r.value < |s| && s[r.value] == k && k !in s[..r.value]
    ensures r.None? <==> k !in s
  {
    if s == [] then None
    else if s[0] == k then Some(0)
    else match IndexOf(s[1..], k)
      case None => None
      case Some(i) =>
        assert s[..i + 1] == [s[0]] + s[1..][..i];
        Some(i + 1)
  }

  /** Splits `key: value` at the first ':' followed by one space. */
  function ParseLine(l: string): Option<(string, string)> {
    match IndexOf(l, ':')
    case None => None
    case Some(j) => if j + 1 < |l| && l[j + 1] == ' ' then Some((l[..j], l[j + 2..])) else None
  }

  /** Reads a text made of newline-terminated `key: value` lines. */
  function ParseReport(s: string): Option<seq<(string, string)>>
    decreases |s|
  {
    if s == [] then Some([])
    else match IndexOf(s, '\n')
      case None => None
      case Some(i) =>
        match ParseLine(s[..i])
        case None => None
        case Some(p) =>
          match ParseReport(s[i + 1..])
          case None => None
          case Some(rest) => Some([p] + rest)
  }

  lemma IndexOfAfter<T>(a: seq<T>, c: T, b: seq<T>)
    requires c !in a
    ensures IndexOf(a + [c] + b, c) == Some(|a|)
  {
    var s := a + [c] + b;
    assert s[|a|] == c;
    assert s[..|a|] == a;
    assert c in s[..|a| + 1];
  }

  lemma ParseLineOfLine(k: string, v: string)
    requires ':' !in k
    ensures ParseLine(k + ": " + v) == Some((k, v))
  {
    var l := k + ": " + v;
    assert l == k + [':'] + (" " + v);
    IndexOfAfter(k, ':', " " + v);
    assert l[..|k|] == k;
    assert l[|k| + 2..] == v;
  }

  predicate NoNewline(s: string) {
    '\n' !in s
  }

  /** Lower-case letters and underscores only. */
  predicate Word(s: string) {
    forall i :: 0 <= i < |s| ==> 'a' <= s[i] <= 'z' || s[i] == '_'
  }

  lemma ShortNamesAreWords()
    ensures Word(Name(Start)) && Word(Name(Dni)) && Word(Name(Edad)) && Word(Name(Finish))
  {
  }

  lemma MiddleNamesAreWords()
    ensures Word(Name(Operaciones)) && Word(Name(Alergias))
  {
  }

  lemma LongNamesAreWords()
    ensures Word(Name(EnfermedadesCronicas)) && Word(Name(MedicamentosActuales))
  {
  }

  lemma NamePlain(k: Key)
    ensures ':' !in Name(k) && '\n' !in Name(k)
  {
    ShortNamesAreWords();
    MiddleNamesAreWords();
    LongNamesAreWords();
    assert Word(Name(k));
  }

  /** A well-formed pair: no ':' nor line break in the key, no line break in the value. */
  predicate PlainPair(p: (string, string)) {
    ':' !in p.0 && '\n' !in p.0 && '\n' !in p.1
  }

  lemma {:induction false} TextRoundTrip(pairs: seq<(string, string)>)
    requires forall i :: 0 <= i < |pairs| ==> PlainPair(pairs[i])
    ensures ParseReport(Text(pairs)) == Some(pairs)
  {
    if pairs != [] {
      var k, v := pairs[0].0, pairs[0].1;
      assert PlainPair(pairs[0]);
      var l := k + ": " + v;
      var rest := Text(pairs[1..]);
      var s := Text(pairs);
      assert s == l + ['\n'] + rest;
      assert '\n' !in l by {
        assert forall i :: 0 <= i < |l| ==> l[i] == (if i < |k| then k[i] else if i < |k| + 2 then ": "[i - |k|] else v[i - |k| - 2]);
      }
      IndexOfAfter(l, '\n', rest);
      assert s[..|l|] == l;
      assert s[|l| + 1..] == rest;
      ParseLineOfLine(k, v);
      TextRoundTrip(pairs[1..]);
      assert pairs == [(k, v)] + pairs[1..];
    }
  }

  /** Plain pairs are told apart by their text. */
  lemma TextInjective(p: seq<(string, string)>, q: seq<(string, string)>)
    requires forall i :: 0 <= i < |p| ==> PlainPair(p[i])
    requires forall i :: 0 <= i < |q| ==> PlainPair(q[i])
    requires Text(p) == Text(q)
    ensures p == q
  {
    TextRoundTrip(p);
    TextRoundTrip(q);
  }

  /**
   * Round trip: when no answer contains a line break, the assistant's context
   * text reads back as the keys in list order, each with its entry in the
   * report's field map.
   */
  lemma FormatResponsesRoundTrip(answers: map<Key, string>)
    requires forall k :: k in answers ==> NoNewline(answers[k])
    ensures ParseReport(FormatResponses(answers)).Some?
    ensures var p := ParseReport(FormatResponses(answers)).value;
      |p| == |Order| &&
      forall i :: 0 <= i < |Order| ==> p[i] == (Name(Order[i]), SummaryFields(answers)[Order[i]])
  {
    PairsPlain(answers);
    TextRoundTrip(Pairs(Order, answers));
    SummaryFieldsComplete(answers);
  }

  lemma PairsPlain(answers: map<Key, string>)
    requires forall k :: k in answers ==> NoNewline(answers[k])
    ensures forall i :: 0 <= i < |Order| ==> PlainPair(Pairs(Order, answers)[i])
  {
    var pairs := Pairs(Order, answers);
    forall i | 0 <= i < |pairs| ensures PlainPair(pairs[i]) {
      NamePlain(Order[i]);
      assert NoNewline(NotProvided);
    }
  }

  /**
   * The assistant's context text tells two answer sets apart exactly when
   * their report field maps differ (for answers without line breaks).
   */
  lemma FormatResponsesInjective(a: map<Key, string>, b: map<Key, string>)
    requires forall k :: k in a ==> NoNewline(a[k])
    requires forall k :: k in b ==> NoNewline(b[k])
    ensures FormatResponses(a) == FormatResponses(b) <==> SummaryFields(a) == SummaryFields(b)
  {
    if FormatResponses(a) == FormatResponses(b) {
      SameTextSameFields(a, b);
    }
    if SummaryFields(a) == SummaryFields(b) {
      SameFieldsSameText(a, b);
    }
  }

  /** Equal report fields give equal context texts, with or without line breaks. */
  lemma SameFieldsSameText(a: map<Key, string>, b: map<Key, string>)
    requires SummaryFields(a) == SummaryFields(b)
    ensures FormatResponses(a) == FormatResponses(b)
  {
    SummaryFieldsComplete(a);
    SummaryFieldsComplete(b);
    assert forall k: Key :: Field(a, k) == SummaryFields(a)[k] == SummaryFields(b)[k] == Field(b, k);
    PairsAgree(Order, a, b);
  }

  lemma {:induction false} PairsAgree(keys: seq<Key>, a: map<Key, string>, b: map<Key, string>)
    requires forall k: Key :: Field(a, k) == Field(b, k)
    ensures Pairs(keys, a) == Pairs(keys, b)
  {
    if keys != [] {
      PairsAgree(keys[1..], a, b);
    }
  }

  lemma SameTextSameFields(a: map<Key, string>, b: map<Key, string>)
    requires forall k :: k in a ==> NoNewline(a[k])
    requires forall k :: k in b ==> NoNewline(b[k])
    requires FormatResponses(a) == FormatResponses(b)
    ensures SummaryFields(a) == SummaryFields(b)
  {
    var pa, pb := Pairs(Order, a), Pairs(Order, b);
    PairsPlain(a);
    PairsPlain(b);
    TextInjective(pa, pb);
    OrderLists();
    SummaryFieldsComplete(a);
    SummaryFieldsComplete(b);
    forall k: Key ensures SummaryFields(a)[k] == SummaryFields(b)[k] {
      assert k in Order;
      var i :| 0 <= i < |Order| && Order[i] == k;
      assert pa[i] == pb[i];
    }
  }
}
