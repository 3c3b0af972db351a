/**
 * Channel transformers: the payloads one survey question becomes on WhatsApp
 * (a text or an interactive message with up to three buttons), on an IVR line
 * (a spoken prompt with up to nine keypad options) and on a web form (a field).
 */
module Channels {
  import opened Wrappers
  import opened Strings
  import opened SurveyModel

  datatype Locale = En | Hi
  datatype Channel = WhatsApp | Ivr | Web

  const MaxButtons := 3
  const ButtonTitleLength := 20
  const MaxDtmf := 9

  datatype MessageKind = TextMessage | Interactive
  datatype Button = Button(id: string, title: string)
  datatype WhatsAppMessage = WhatsAppMessage(kind: MessageKind, body: string, buttons: Option<seq<Button>>)

  datatype Voice = Female | Male
  datatype DtmfOption = DtmfOption(digit: string, value: string)
  datatype IvrPrompt = IvrPrompt(voice: Voice, text: string, dtmfOptions: Option<seq<DtmfOption>>)

  datatype FieldType = Textarea | Select | CheckboxGroup
  datatype WebFormField = WebFormField(id: string, labelText: string, ftype: FieldType, options: Option<seq<string>>, required: bool)

  datatype Payload = Messages(messages: seq<WhatsAppMessage>) | Prompt(prompt: IvrPrompt) | Field(field: WebFormField)

  /** The Hindi title when the locale asks for it and one is set, else the title. */
  function DisplayTitle(q: Question, locale: Locale): (t: string)
    ensures locale == En ==> t == q.title
    ensures !Truthy(q.hiTitle) ==> t == q.title
    ensures locale == Hi && Truthy(q.hiTitle) ==> t == q.hiTitle.value
    ensures t != q.title ==> locale == Hi && Truthy(q.hiTitle) && t == q.hiTitle.value
  {
    if locale == Hi && Truthy(q.hiTitle) then q.hiTitle.value else q.title
  }

  /** Radio and drop-down questions that carry an options array (even an empty one). */
  predicate HasChoices(q: Question) {
    (q.qtype == Radio || q.qtype == MultipleChoice) && q.options.Some?
  }

  function Prefix<T>(s: seq<T>, n: nat): (r: seq<T>)
    ensures |r| == if |s| < n then |s| else n
    ensures r == s[..|r|]
  {
    if |s| < n then s else s[..n]
  }

  /** `${q.id}_${i}`. */
  function ButtonId(id: string, i: nat): string {
    id + "_" + Radix(i, 10)
  }

  function Buttons(q: Question): (bs: seq<Button>)
    requires q.options.Some?
    ensures |bs| <= MaxButtons
    ensures |bs| == if |q.options.value| < MaxButtons then |q.options.value| else MaxButtons
    ensures forall i :: 0 <= i < |bs| ==>
              bs[i] == Button(ButtonId(q.id, i), Take(q.options.value[i], ButtonTitleLength))
  {
    var os := Prefix(q.options.value, MaxButtons);
    seq(|os|, i requires 0 <= i < |os| => Button(ButtonId(q.id, i), Take(os[i], ButtonTitleLength)))
  }

  /** `toWhatsAppMessages`. */
  function ToWhatsApp(q: Question, locale: Locale): (ms: seq<WhatsAppMessage>)
    ensures |ms| == 1 && ms[0].body == DisplayTitle(q, locale)
    ensures HasChoices(q) ==> ms[0].kind == Interactive && ms[0].buttons == Some(Buttons(q))
    ensures !HasChoices(q) ==> ms[0] == WhatsAppMessage(TextMessage, DisplayTitle(q, locale), None)
  {
    var title := DisplayTitle(q, locale);
    if HasChoices(q) then [WhatsAppMessage(Interactive, title, Some(Buttons(q)))]
    else [WhatsAppMessage(TextMessage, title, None)]
  }

  /** Two buttons of one question never share an id. */
  lemma ButtonIdsDistinct(q: Question, i: nat, j: nat)
    requires i != j
    ensures ButtonId(q.id, i) != ButtonId(q.id, j)
  {
    var p := q.id + "_";
    assert ButtonId(q.id, i) == p + Radix(i, 10);
    assert ButtonId(q.id, j) == p + Radix(j, 10);
    if ButtonId(q.id, i) == ButtonId(q.id, j) {
      assert Radix(i, 10) == (p + Radix(i, 10))[|p|..];
      assert Radix(j, 10) == (p + Radix(j, 10))[|p|..];
      RadixRoundTrip(i, 10);
      RadixRoundTrip(j, 10);
    }
  }

  /** The first nine options keyed 1 to 9; `String(i + 1)` is one decimal digit here. */
  function DtmfOptions(options: seq<string>): (ds: seq<DtmfOption>)
    ensures |ds| == if |options| < MaxDtmf then |options| else MaxDtmf
    ensures forall i :: 0 <= i < |ds| ==> ds[i] == DtmfOption([Digits[i + 1]], options[i])
  {
    var n := if |options| < MaxDtmf then |options| else MaxDtmf;
    seq(n, i requires 0 <= i < n => DtmfOption([Digits[i + 1]], options[i]))
  }

  /** Keypad digits are the single characters 1 to 9, reading back as their position plus one. */
  lemma DtmfDigits(options: seq<string>, i: nat)
    requires i < |DtmfOptions(options)|
    ensures var d := DtmfOptions(options)[i].digit;
      && d == Radix(i + 1, 10)
      && |d| == 1 && d != "0" && FromRadix(d, 10) == i + 1
  {
    RadixRoundTrip(i + 1, 10);
  }

  /** `toIVRPrompt`: the voice is always female. */
  function ToIvr(q: Question, locale: Locale): (p: IvrPrompt)
    ensures p.voice == Female && p.text == DisplayTitle(q, locale)
    ensures p.dtmfOptions.Some? <==> HasChoices(q)
    ensures HasChoices(q) ==> p.dtmfOptions.value == DtmfOptions(q.options.value)
  {
    var title := DisplayTitle(q, locale);
    if HasChoices(q) then IvrPrompt(Female, title, Some(DtmfOptions(q.options.value)))
    else IvrPrompt(Female, title, None)
  }

  /** `toWebFormField`: a missing options list becomes the empty one. */
  function ToWebForm(q: Question, locale: Locale): (f: WebFormField)
    ensures f.id == q.id && f.labelText == DisplayTitle(q, locale) && f.required == q.required
    ensures f.ftype == match q.qtype case Text => Textarea case Checkbox => CheckboxGroup case _ => Select
    ensures f.options == if q.qtype == Text then None else Some(q.options.GetOr([]))
  {
    var caption := DisplayTitle(q, locale);
    if q.qtype == Text then WebFormField(q.id, caption, Textarea, None, q.required)
    else if q.qtype == Checkbox then WebFormField(q.id, caption, CheckboxGroup, Some(q.options.GetOr([])), q.required)
    else WebFormField(q.id, caption, Select, Some(q.options.GetOr([])), q.required)
  }

  /** `transformForChannel`: the builder for the chosen channel. */
  function TransformForChannel(q: Question, channel: Channel, locale: Locale): (p: Payload)
    ensures channel == WhatsApp <==> p.Messages?
    ensures channel == Ivr <==> p.Prompt?
    ensures channel == Web <==> p.Field?
    ensures p.Messages? ==> p.messages == ToWhatsApp(q, locale)
    ensures p.Prompt? ==> p.prompt == ToIvr(q, locale)
    ensures p.Field? ==> p.field == ToWebForm(q, locale)
  {
    match channel
    case WhatsApp => Messages(ToWhatsApp(q, locale))
    case Ivr => Prompt(ToIvr(q, locale))
    case Web => Field(ToWebForm(q, locale))
  }

  /** The three channels agree on what the respondent reads. */
  lemma ChannelsAgreeOnTitle(q: Question, locale: Locale)
    ensures ToWhatsApp(q, locale)[0].body == ToIvr(q, locale).text == ToWebForm(q, locale).labelText
  {
  }

  /** Under locale `hi`, a question with a Hindi title is shown in Hindi on all three channels. */
  lemma HindiOnEveryChannel(q: Question)
    requires Truthy(q.hiTitle)
    ensures ToWhatsApp(q, Hi)[0].body == q.hiTitle.value
    ensures ToIvr(q, Hi).text == q.hiTitle.value
    ensures ToWebForm(q, Hi).labelText == q.hiTitle.value
  {
  }

  /** A question whose options were dropped by a channel still offers them in order on the others. */
  lemma ChoicesKeptInOrder(q: Question, i: nat)
    requires HasChoices(q) && i < |q.options.value| && i < MaxButtons
    ensures Buttons(q)[i].title == q.options.value[i][..|Buttons(q)[i].title|]
    ensures DtmfOptions(q.options.value)[i].value == q.options.value[i]
    ensures ToWebForm(q, En).options == Some(q.options.value)
  {
  }
}
