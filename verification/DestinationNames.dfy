/**
  Destination names: the physical name without its options, the qualified text form, the names
  of temporary destinations, and the components of composite names.
 */
module DestinationNames {
  import opened Collections
  import opened Options

  // ---- std::string searches ----

  /** find: the first occurrence at or after i. */
  function FindFrom(s: string, word: string, i: nat): (r: Option<nat>)
    requires i <= |s|
    ensures r.Some? ==> OccursAt(s, word, r.value) && i <= r.value && forall j :: i <= j < r.value ==> !OccursAt(s, word, j)
    ensures r.None? ==> forall j :: i <= j ==> !OccursAt(s, word, j)
    decreases |s| - i
  {
    if i + |word| > |s| then None
    else if s[i..i + |word|] == word then Some(i)
    else FindFrom(s, word, i + 1)
  }

  function Find(s: string, word: string): Option<nat> {
    FindFrom(s, word, 0)
  }

  /** rfind: the last occurrence at or before i. */
  function FindBack(s: string, word: string, i: nat): (r: Option<nat>)
    requires i <= |s|
    ensures r.Some? ==> OccursAt(s, word, r.value) && r.value <= i && forall j :: r.value < j <= i ==> !OccursAt(s, word, j)
    ensures r.None? ==> forall j :: 0 <= j <= i ==> !OccursAt(s, word, j)
  {
    if i + |word| <= |s| && s[i..i + |word|] == word then Some(i)
    else if i == 0 then None
    else FindBack(s, word, i - 1)
  }

  function RFind(s: string, word: string): Option<nat> {
    FindBack(s, word, |s|)
  }

  lemma FindPrefix(word: string, rest: string)
    ensures Find(word + rest, word) == Some(0)
  {
    assert (word + rest)[0..|word|] == word;
  }

  lemma RFindSuffix(s: string, word: string)
    requires word != ""
    ensures RFind(s + word, word) == Some(|s|)
  {
    var t := s + word;
    assert t[|s|..|s| + |word|] == word;
    assert OccursAt(t, word, |s|);
    assert forall j :: |s| < j <= |t| ==> !OccursAt(t, word, j);
  }

  // ---- Destinations and their text form ----

  datatype Kind = Topic | Queue | TempTopic | TempQueue

  datatype Destination = Destination(kind: Kind, name: string)

  /** The default type argument, an int in the source; other numbers are invalid. */
  function KindOf(number: int): Option<Kind> {
    if number == 0 then Some(Topic)
    else if number == 1 then Some(Queue)
    else if number == 2 then Some(TempTopic)
    else if number == 3 then Some(TempQueue)
    else None
  }

  function Prefix(kind: Kind): string {
    match kind
    case Topic => "topic://"
    case Queue => "queue://"
    case TempTopic => "temp-topic://"
    case TempQueue => "temp-queue://"
  }

  /** The physical name: the text before the first question mark. */
  function StripOptions(name: string): string {
    match Find(name, "?")
    case Some(i) => name[..i]
    case None => name
  }

  lemma StripExact(name: string)
    ensures '?' !in StripOptions(name)
    ensures StripOptions(name) == name <==> '?' !in name
    ensures '?' in name ==> StripOptions(name) + "?" <= name
  {
    var s := StripOptions(name);
    forall i | 0 <= i < |s| ensures s[i] != '?' {
      assert !OccursAt(name, "?", i);
      assert name[i..i + 1] == [name[i]];
    }
    if Find(name, "?").Some? {
      var i := Find(name, "?").value;
      assert name[i..i + 1][0] == name[i];
    }
  }

  function ToText(d: Destination): string {
    Prefix(d.kind) + d.name
  }

  predicate Qualified(text: string, kind: Kind) {
    Find(text, Prefix(kind)) == Some(0)
  }

  function Unqualified(text: string, kind: Kind): Destination
    requires Qualified(text, kind)
  {
    Destination(kind, StripOptions(text[|Prefix(kind)|..]))
  }

  /** createDestination: a qualified text decides its own type, other text takes the default. */
  function CreateDestination(number: int, text: string): Option<Destination> {
    if Qualified(text, Queue) then Some(Unqualified(text, Queue))
    else if Qualified(text, Topic) then Some(Unqualified(text, Topic))
    else if Qualified(text, TempQueue) then Some(Unqualified(text, TempQueue))
    else if Qualified(text, TempTopic) then Some(Unqualified(text, TempTopic))
    else match KindOf(number)
      case Some(kind) => Some(Destination(kind, StripOptions(text)))
      case None => None
  }

  lemma OnlyOwnPrefix(d: Destination, kind: Kind)
    ensures Qualified(ToText(d), kind) <==> kind == d.kind
  {
    var text := ToText(d);
    FindPrefix(Prefix(d.kind), d.name);
    var p, q := Prefix(kind), Prefix(d.kind);
    if kind != d.kind && |p| <= |text| {
      assert p[0] != q[0] || p[1] != q[1] || p[5] != q[5];
      assert text[0] == q[0] && text[1] == q[1] && text[5] == q[5];
      var head := text[0..|p|];
      assert head[0] == text[0] && head[1] == text[1] && head[5] == text[5];
      assert !OccursAt(text, p, 0);
    }
  }

  /** Parsing the printed form under any default type, valid or not, gives back the type and the
      name up to its options: the same destination exactly when its name has no question mark,
      which no stored physical name has.  Names that look qualified are no exception. */
  lemma PrintThenParse(number: int, d: Destination)
    ensures CreateDestination(number, ToText(d)) == Some(Destination(d.kind, StripOptions(d.name)))
    ensures CreateDestination(number, ToText(d)) == Some(d) <==> '?' !in d.name
  {
    OnlyOwnPrefix(d, Queue);
    OnlyOwnPrefix(d, Topic);
    OnlyOwnPrefix(d, TempQueue);
    OnlyOwnPrefix(d, TempTopic);
    assert ToText(d)[|Prefix(d.kind)|..] == d.name;
    StripExact(d.name);
  }

  /** The qualifiers, letter by letter: what each prints and how each is parsed. */
  lemma QualifierOfEachKind(number: int, name: string)
    ensures ToText(Destination(Topic, name)) == "topic://" + name
    ensures ToText(Destination(Queue, name)) == "queue://" + name
    ensures ToText(Destination(TempTopic, name)) == "temp-topic://" + name
    ensures ToText(Destination(TempQueue, name)) == "temp-queue://" + name
    ensures '?' !in name ==>
      && CreateDestination(number, "topic://" + name) == Some(Destination(Topic, name))
      && CreateDestination(number, "queue://" + name) == Some(Destination(Queue, name))
      && CreateDestination(number, "temp-topic://" + name) == Some(Destination(TempTopic, name))
      && CreateDestination(number, "temp-queue://" + name) == Some(Destination(TempQueue, name))
  {
    hide FindFrom, StripOptions, CreateDestination;
    PrintThenParse(number, Destination(Topic, name));
    PrintThenParse(number, Destination(Queue, name));
    PrintThenParse(number, Destination(TempTopic, name));
    PrintThenParse(number, Destination(TempQueue, name));
  }

  lemma QualifiedExact(text: string, kind: Kind)
    ensures Qualified(text, kind) <==> Prefix(kind) <= text
  {
    if Prefix(kind) <= text { assert OccursAt(text, Prefix(kind), 0); }
    if Qualified(text, kind) { assert OccursAt(text, Prefix(kind), 0); }
  }

  /** A text with none of the qualifiers takes the type with the given number: 0 a topic, 1 a
      queue, 2 a temporary topic, 3 a temporary queue; other numbers are refused. */
  lemma NumberOfEachKind(number: int, text: string)
    requires !("topic://" <= text) && !("queue://" <= text) && !("temp-topic://" <= text) && !("temp-queue://" <= text)
    requires '?' !in text
    ensures CreateDestination(0, text) == Some(Destination(Topic, text))
    ensures CreateDestination(1, text) == Some(Destination(Queue, text))
    ensures CreateDestination(2, text) == Some(Destination(TempTopic, text))
    ensures CreateDestination(3, text) == Some(Destination(TempQueue, text))
    ensures CreateDestination(number, text).None? <==> number < 0 || number > 3
  {
    StripExact(text);
    QualifiedExact(text, Topic);
    QualifiedExact(text, Queue);
    QualifiedExact(text, TempTopic);
    QualifiedExact(text, TempQueue);
    hide Qualified, StripOptions;
  }

  lemma ParsedNameIsStripped(number: int, text: string)
    requires CreateDestination(number, text).Some?
    ensures '?' !in CreateDestination(number, text).value.name
  {
    hide FindFrom, StripOptions, Prefix;
    StripExact(text);
    if Qualified(text, Queue) { StripExact(text[|Prefix(Queue)|..]); }
    if Qualified(text, Topic) { StripExact(text[|Prefix(Topic)|..]); }
    if Qualified(text, TempQueue) { StripExact(text[|Prefix(TempQueue)|..]); }
    if Qualified(text, TempTopic) { StripExact(text[|Prefix(TempTopic)|..]); }
  }

  /** Every destination that createDestination yields has a name without a question mark, so it
      survives printing and parsing. */
  lemma ParsedNamesAreStored(number: int, text: string, other: int)
    ensures var d := CreateDestination(number, text);
      d.Some? ==> '?' !in d.value.name && CreateDestination(other, ToText(d.value)) == d
  {
    var d := CreateDestination(number, text);
    if d.Some? {
      ParsedNameIsStripped(number, text);
      PrintThenParse(other, d.value);
    }
  }

  // ---- Temporary names ----

  const TEMP_PREFIX := "{TD{"
  const TEMP_POSTFIX := "}TD}"

  function CreateTemporaryName(clientId: string): string {
    TEMP_PREFIX + clientId + TEMP_POSTFIX
  }

  function GetClientId(d: Destination): string {
    if d.kind.TempTopic? || d.kind.TempQueue? then
      match Find(d.name, TEMP_PREFIX)
      case None => ""
      case Some(i) =>
        var start := i + |TEMP_PREFIX|;
        match RFind(d.name, TEMP_POSTFIX)
        case None => ""
        case Some(stop) => if stop > start && stop < |d.name| then d.name[start..stop] else ""
    else ""
  }

  /** The name of a temporary destination, letter by letter; no other kind has a client id. */
  lemma TemporaryNameText(id: string, kind: Kind)
    ensures CreateTemporaryName(id) == "{TD{" + id + "}TD}"
    ensures kind.Topic? || kind.Queue? ==> GetClientId(Destination(kind, CreateTemporaryName(id))) == ""
  {
  }

  lemma ClientIdFound(kind: Kind, id: string)
    requires kind.TempTopic? || kind.TempQueue?
    ensures GetClientId(Destination(kind, CreateTemporaryName(id))) == id
  {
    var name := CreateTemporaryName(id);
    assert name == TEMP_PREFIX + (id + TEMP_POSTFIX);
    FindPrefix(TEMP_PREFIX, id + TEMP_POSTFIX);
    RFindSuffix(TEMP_PREFIX + id, TEMP_POSTFIX);
    assert name[|TEMP_PREFIX|..|TEMP_PREFIX| + |id|] == id;
  }

  lemma ClientIdFromName(d: Destination, c: char)
    requires c !in d.name
    ensures c !in GetClientId(d)
  {
  }

  /** The client id comes back from a temporary destination named after it, for every id, empty
      or full of markers, if and only if it has no question mark. */
  lemma ClientIdRoundTrip(kind: Kind, id: string)
    requires kind.TempTopic? || kind.TempQueue?
    ensures GetClientId(Destination(kind, StripOptions(CreateTemporaryName(id)))) == id <==> '?' !in id
  {
    var name := CreateTemporaryName(id);
    StripExact(name);
    if '?' in id {
      ClientIdFromName(Destination(kind, StripOptions(name)), '?');
    } else {
      forall i | 0 <= i < |name| ensures name[i] != '?' {
        if 4 <= i < 4 + |id| { assert name[i] == id[i - 4]; }
      }
      ClientIdFound(kind, id);
    }
  }
}
