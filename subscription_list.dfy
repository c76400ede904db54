/**
 * `SubscriptionList.add`: the subscription string handed to the engine is
 * the topic, then `?fields=` and the comma-joined fields when there are
 * any, then the options joined by `&`, introduced by `&` after the fields
 * or by `?` when there are none.  A missing topic is the empty string and a
 * missing correlation id is a fresh one.
 */
module SubscriptionList {
  import opened Wrappers
  import opened PyValues
  import opened Text
  import Utils

  /** A str or bytes argument (`isstr`). */
  datatype StrArg = Str(s: string) | Bytes(bytes: seq<Byte>)

  /** The `fields` argument: None, a str or bytes, or a sequence of str. */
  datatype FieldsArg = NoFields | FieldsText(text: StrArg) | FieldsSeq(items: seq<string>)

  /**
   * The `options` argument: None, a str or bytes, a list or tuple of str,
   * a dict from key to value (None, or what `str()` of the value gives), or
   * an object of any other type, with its truth value.
   */
  datatype OptionsArg =
    | NoOptions
    | OptionsText(text: StrArg)
    | OptionsList(items: seq<string>)
    | OptionsDict(entries: seq<(string, Option<string>)>)
    | OptionsOther(truthy: bool)

  datatype CorrelationId = CorrelationId(value: nat)

  /** What `add` passes to `blpapi_SubscriptionList_addHelper`. */
  datatype AddCall = AddCall(subscription: string, correlationId: CorrelationId)

  /** `conv2str` of a str or bytes; bytes that are not UTF-8 raise. */
  function TextOf(arg: StrArg, decode: seq<Byte> -> Option<string>): (r: Result<string, string>)
    ensures arg.Str? ==> r == Ok(arg.s)
    ensures r.Err? <==> arg.Bytes? && decode(arg.bytes).None?
    ensures arg.Bytes? && r.Ok? ==> Some(r.value) == decode(arg.bytes)
  {
    match Utils.Conv2Str(if arg.Str? then PyStr(arg.s) else PyBytes(arg.bytes), decode)
    case Err(e) => Err(e)
    case Ok(v) => if v.PyStr? then Ok(v.s) else Ok("")
  }

  /** Python's truth value of the argument: an empty text or sequence is false. */
  predicate FieldsGiven(fields: FieldsArg) {
    match fields
    case NoFields => false
    case FieldsText(t) => if t.Str? then t.s != "" else t.bytes != []
    case FieldsSeq(items) => items != []
  }

  predicate OptionsGiven(options: OptionsArg) {
    match options
    case NoOptions => false
    case OptionsText(t) => if t.Str? then t.s != "" else t.bytes != []
    case OptionsList(items) => items != []
    case OptionsDict(entries) => entries != []
    case OptionsOther(truthy) => truthy
  }

  /** The fields text: the text itself, or the items joined by ",". */
  function FieldsText(fields: FieldsArg, decode: seq<Byte> -> Option<string>): Result<string, string> {
    match fields
    case NoFields => Ok("")
    case FieldsText(t) => TextOf(t, decode)
    case FieldsSeq(items) => Ok(Join(items, ","))
  }

  /** One dict entry of the options: "key" for a None value, else "key=value". */
  function OptionEntry(entry: (string, Option<string>)): string {
    if entry.1.None? then entry.0 else entry.0 + "=" + entry.1.value
  }

  function OptionEntries(entries: seq<(string, Option<string>)>): (r: seq<string>)
    ensures |r| == |entries|
    ensures forall i :: 0 <= i < |entries| ==> r[i] == OptionEntry(entries[i])
  {
    if entries == [] then [] else [OptionEntry(entries[0])] + OptionEntries(entries[1..])
  }

  /** The options text; an argument of any other type contributes nothing. */
  function OptionsText(options: OptionsArg, decode: seq<Byte> -> Option<string>): Result<string, string> {
    match options
    case NoOptions => Ok("")
    case OptionsText(t) => TextOf(t, decode)
    case OptionsList(items) => Ok(Join(items, "&"))
    case OptionsDict(entries) => Ok(Join(OptionEntries(entries), "&"))
    case OptionsOther(_) => Ok("")
  }

  /** The fields text `add` uses: empty unless the argument is given (true). */
  function FieldsPart(fields: FieldsArg, decode: seq<Byte> -> Option<string>): Result<string, string> {
    if FieldsGiven(fields) then FieldsText(fields, decode) else Ok("")
  }

  /** The options text `add` uses: empty unless the argument is given (true). */
  function OptionsPart(options: OptionsArg, decode: seq<Byte> -> Option<string>): Result<string, string> {
    if OptionsGiven(options) then OptionsText(options, decode) else Ok("")
  }

  /**
   * The subscription string of a topic, a fields text and an options text:
   * `?fields=` and the fields when they are not empty, then the options,
   * after `&` when fields were written and after `?` otherwise.
   */
  function Subscription(base: string, f: string, o: string): (s: string)
    ensures |base| <= |s| && s[..|base|] == base
  {
    var withFields := if f != "" then base + "?fields=" + f else base;
    var prefix := if f != "" then "&" else "?";
    if o != "" then withFields + prefix + o else withFields
  }

  /**
   * `add`: the subscription string and the correlation id the engine
   * receives, or the UnicodeDecodeError of a bytes argument.  `freshId` is
   * the `CorrelationId()` created when none is given.
   */
  function Add(topic: Option<string>, fields: FieldsArg, options: OptionsArg,
               correlationId: Option<CorrelationId>, freshId: CorrelationId,
               decode: seq<Byte> -> Option<string>): (r: Result<AddCall, string>)
    ensures r.Ok? ==> r.value.correlationId == (if correlationId.None? then freshId else correlationId.value)
    ensures r.Ok? <==> FieldsPart(fields, decode).Ok? && OptionsPart(options, decode).Ok?
    ensures r.Ok? ==> r.value.subscription == Subscription(if topic.None? then "" else topic.value,
                                                            FieldsPart(fields, decode).value,
                                                            OptionsPart(options, decode).value)
    ensures r.Err? ==> r.error == if FieldsPart(fields, decode).Err? then FieldsPart(fields, decode).error
                                  else OptionsPart(options, decode).error
    ensures r.Ok? && topic.Some? ==>
              |topic.value| <= |r.value.subscription| && r.value.subscription[..|topic.value|] == topic.value
  {
    var cid := if correlationId.None? then freshId else correlationId.value;
    var base := if topic.None? then "" else topic.value;
    var f := FieldsPart(fields, decode);
    if f.Err? then Err(f.error)
    else
      var o := OptionsPart(options, decode);
      if o.Err? then Err(o.error)
      else Ok(AddCall(Subscription(base, f.value, o.value), cid))
  }

  // ----- reading a subscription string back -----

  /** A subscription string taken apart: the topic, the fields text (if any) and the options text. */
  datatype Parsed = Parsed(topic: string, fields: string, options: string)

  const FIELDS_KEY: string := "fields="

  predicate StartsWithFieldsKey(s: string) {
    |s| >= |FIELDS_KEY| && s[..|FIELDS_KEY|] == FIELDS_KEY
  }

  /**
   * The parts of a subscription string: the topic up to the first "?";
   * after it, a query that starts with "fields=" holds the fields up to the
   * first "&" and the options after it; any other query is all options.
   */
  function ParseSubscription(s: string): Parsed {
    var byQuery := SplitOnce(s, '?');
    if |byQuery| == 1 then Parsed(s, "", "")
    else
      var query := byQuery[1];
      if StartsWithFieldsKey(query) then
        var byOptions := SplitOnce(query[|FIELDS_KEY|..], '&');
        Parsed(byQuery[0], byOptions[0], if |byOptions| == 2 then byOptions[1] else "")
      else Parsed(byQuery[0], "", query)
  }

  /**
   * The subscription string loses nothing: the topic, the fields text and
   * the options text come back from it, provided the topic has no "?", the
   * fields text has no "&", and options written without fields do not
   * themselves start with "fields=".
   */
  lemma SubscriptionRoundTrip(base: string, f: string, o: string)
    requires '?' !in base && '&' !in f
    requires f == "" ==> !StartsWithFieldsKey(o)
    ensures ParseSubscription(Subscription(base, f, o)) == Parsed(base, f, o)
  {
    var s := Subscription(base, f, o);
    if f != "" {
      var query := FIELDS_KEY + f + (if o != "" then "&" + o else "");
      assert s == base + ['?'] + query;
      SplitOnceAt(base, '?', query);
      assert query[..|FIELDS_KEY|] == FIELDS_KEY;
      var rest := query[|FIELDS_KEY|..];
      if o != "" {
        assert rest == f + ['&'] + o;
        SplitOnceAt(f, '&', o);
      } else {
        assert rest == f;
      }
    } else if o != "" {
      assert s == base + ['?'] + o;
      SplitOnceAt(base, '?', o);
    } else {
      assert s == base;
    }
  }

  /** Hence `add` itself loses nothing of its topic, fields and options under the same conditions. */
  lemma AddRoundTrip(topic: string, fields: FieldsArg, options: OptionsArg,
                     correlationId: Option<CorrelationId>, freshId: CorrelationId,
                     decode: seq<Byte> -> Option<string>)
    requires Add(Some(topic), fields, options, correlationId, freshId, decode).Ok?
    requires '?' !in topic && '&' !in FieldsPart(fields, decode).value
    requires FieldsPart(fields, decode).value == "" ==> !StartsWithFieldsKey(OptionsPart(options, decode).value)
    ensures ParseSubscription(Add(Some(topic), fields, options, correlationId, freshId, decode).value.subscription)
            == Parsed(topic, FieldsPart(fields, decode).value, OptionsPart(options, decode).value)
  {
    SubscriptionRoundTrip(topic, FieldsPart(fields, decode).value, OptionsPart(options, decode).value);
  }

  /** With neither fields nor options, the topic reaches the engine unchanged. */
  lemma PlainTopicUnchanged(topic: string, fields: FieldsArg, options: OptionsArg,
                            correlationId: Option<CorrelationId>, freshId: CorrelationId,
                            decode: seq<Byte> -> Option<string>)
    requires !FieldsGiven(fields) && !OptionsGiven(options)
    ensures Add(Some(topic), fields, options, correlationId, freshId, decode)
            == Ok(AddCall(topic, if correlationId.None? then freshId else correlationId.value))
  {
  }

  /**
   * The options of a dict come back entry by entry from the options text,
   * when no key or value holds "&".
   */
  lemma {:induction false} DictOptionsRoundTrip(entries: seq<(string, Option<string>)>, decode: seq<Byte> -> Option<string>)
    requires entries != []
    requires forall i :: 0 <= i < |entries| ==> '&' !in entries[i].0
    requires forall i :: 0 <= i < |entries| ==> entries[i].1.Some? ==> '&' !in entries[i].1.value
    ensures Split(OptionsText(OptionsDict(entries), decode).value, '&') == OptionEntries(entries)
  {
    var parts := OptionEntries(entries);
    forall k | 0 <= k < |parts| ensures '&' !in parts[k] {
      var e := entries[k];
      if e.1.Some? {
        assert parts[k] == e.0 + "=" + e.1.value;
      }
    }
    JoinSplit(parts, '&');
  }
}
