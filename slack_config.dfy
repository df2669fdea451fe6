/**
 * The configuration of a Slack event notification: an immutable record of
 * twelve settings, the JSON keys that name them, the builder that creates
 * it, the builder-driven JSON binding, and the manual validation.
 */
module SlackConfig {
  import opened Wrappers

  /** The type name the notification registers under. */
  const TYPE_NAME: string := "slack-notification-v3"

  /** The template rendered when the user leaves the custom message empty. */
  const DEFAULT_MESSAGE: string := "TODO, This is default custom message"

  // JSON keys, one per setting.
  const CK_COLOR: string := "color"
  const CK_CUSTOM_MESSAGE: string := "custom_message"
  const CK_WEBHOOK_URL: string := "webhook_url"
  const CK_CHANNEL: string := "channel"
  const CK_USER_NAME: string := "user_name"
  const CK_ADD_BLITEMS: string := "backlog_items"
  const CK_NOTIFY_CHANNEL: string := "notify_channel"
  const CK_LINK_NAMES: string := "link_names"
  const CK_ICON_URL: string := "icon_url"
  const CK_ICON_EMOJI: string := "icon_emoji"
  const CK_GRAYLOG2_URL: string := "graylog2_url"
  const CK_PROXY_ADDRESS: string := "proxy_address"

  /** The message `validate` records for an empty webhook URL. */
  const WEBHOOK_URL_EMPTY: string := "Webhook URL cannot be empty."

  /** The built configuration. `typeName` is the `type` property every notification config carries. */
  datatype Config = Config(
    typeName: string,
    color: string,
    customMessage: string,
    webhookUrl: string,
    channel: string,
    userName: string,
    addBacklogItems: string,
    notifyChannel: bool,
    linksName: bool,
    iconUrl: string,
    iconEmoji: string,
    graylog2Url: string,
    proxyAddress: string)

  /** What `Builder.create()` sets before any other setter runs. */
  function Defaults(): Config {
    Config(TYPE_NAME, "", "", "", "", "", "", false, false, "", "", "", "")
  }

  // ---------------------------------------------------------------------------
  // @NotBlank on color, webhookUrl, channel (and notifyChannel, a boolean)

  /** `String.trim()`: leading and trailing characters up to the space are dropped. */
  function Trim(s: string): (t: string)
    ensures |t| <= |s|
    ensures t != "" ==> ' ' < t[0] && ' ' < t[|t| - 1]
    ensures t == "" <==> forall i :: 0 <= i < |s| ==> s[i] <= ' '
    decreases |s|
  {
    if s == "" then ""
    else if s[0] <= ' ' then
      assert forall i :: 0 <= i < |s| - 1 ==> s[1..][i] == s[i + 1];
      Trim(s[1..])
    else if s[|s| - 1] <= ' ' then
      assert forall i :: 0 <= i < |s| - 1 ==> s[..|s| - 1][i] == s[i];
      Trim(s[..|s| - 1])
    else s
  }

  /**
   * What `String.trim()` returns is the piece of `s` between its first and its
   * last character above the space: everything cut off is at most a space.
   */
  lemma {:induction false} TrimSlice(s: string) returns (i: int, j: int)
    ensures 0 <= i <= j <= |s| && Trim(s) == s[i..j]
    ensures forall k :: 0 <= k < i ==> s[k] <= ' '
    ensures forall k :: j <= k < |s| ==> s[k] <= ' '
    decreases |s|
  {
    if s == "" {
      i, j := 0, 0;
    } else if s[0] <= ' ' {
      var i', j' := TrimSlice(s[1..]);
      i, j := i' + 1, j' + 1;
      DropFirst(s, s[1..], i', j');
    } else if s[|s| - 1] <= ' ' {
      i, j := TrimSlice(s[..|s| - 1]);
      DropLast(s, s[..|s| - 1], i, j);
    } else {
      i, j := 0, |s|;
    }
  }

  /** A slice of `s[1..]` bounded by spaces, shifted by one, when `s` starts with a space. */
  lemma DropFirst(s: string, t: string, i: int, j: int)
    requires s != "" && s[0] <= ' ' && t == s[1..]
    requires 0 <= i <= j <= |t|
    requires forall k :: 0 <= k < i ==> t[k] <= ' '
    requires forall k :: j <= k < |t| ==> t[k] <= ' '
    ensures t[i..j] == s[i + 1..j + 1]
    ensures forall k :: 0 <= k < i + 1 ==> s[k] <= ' '
    ensures forall k :: j + 1 <= k < |s| ==> s[k] <= ' '
  {
    forall k | 0 < k < i + 1 ensures s[k] <= ' ' {
      assert s[k] == t[k - 1];
    }
    forall k | j + 1 <= k < |s| ensures s[k] <= ' ' {
      assert s[k] == t[k - 1];
    }
  }

  /** A slice of `s[..|s| - 1]` bounded by spaces, when `s` ends with a space. */
  lemma DropLast(s: string, t: string, i: int, j: int)
    requires s != "" && s[|s| - 1] <= ' ' && t == s[..|s| - 1]
    requires 0 <= i <= j <= |t|
    requires forall k :: 0 <= k < i ==> t[k] <= ' '
    requires forall k :: j <= k < |t| ==> t[k] <= ' '
    ensures t[i..j] == s[i..j]
    ensures forall k :: 0 <= k < i ==> s[k] <= ' '
    ensures forall k :: j <= k < |s| ==> s[k] <= ' '
  {
  }

  /** Blank in the bean-validation sense: nothing is left once the string is trimmed. */
  predicate IsBlank(s: string)
    ensures IsBlank(s) <==> forall i :: 0 <= i < |s| ==> s[i] <= ' '
    ensures s == "" ==> IsBlank(s)
  {
    Trim(s) == ""
  }

  /**
   * The string settings marked non-blank hold non-blank strings. What bean
   * validation does with the marker on the boolean `notifyChannel` is not
   * modelled.
   */
  predicate WellFormed(c: Config)
    ensures WellFormed(c) ==> c.color != "" && c.webhookUrl != "" && c.channel != ""
  {
    !IsBlank(c.color) && !IsBlank(c.webhookUrl) && !IsBlank(c.channel)
  }

  /** The builder's defaults never satisfy the non-blank markers. */
  lemma DefaultsNotWellFormed()
    ensures !WellFormed(Defaults())
    ensures IsBlank(Defaults().color) && IsBlank(Defaults().webhookUrl) && IsBlank(Defaults().channel)
  {
  }

  // ---------------------------------------------------------------------------
  // Builder

  /** The mutable builder; each setter stores one setting. */
  class Builder {
    var typeName: string
    var color: string
    var customMessage: string
    var webhookUrl: string
    var channel: string
    var userName: string
    var addBacklogItems: string
    var notifyChannel: bool
    var linksName: bool
    var iconUrl: string
    var iconEmoji: string
    var graylog2Url: string
    var proxyAddress: string

    /** The configuration `build()` would return now. */
    function Current(): Config
      reads this
    {
      Config(typeName, color, customMessage, webhookUrl, channel, userName, addBacklogItems,
             notifyChannel, linksName, iconUrl, iconEmoji, graylog2Url, proxyAddress)
    }

    /** `create()`: the type name, every string setting empty, both flags off. */
    constructor Create()
      ensures Current() == Defaults()
      ensures typeName == TYPE_NAME && color == "" && customMessage == "" && webhookUrl == ""
      ensures channel == "" && userName == "" && addBacklogItems == "" && !notifyChannel && !linksName
      ensures iconUrl == "" && iconEmoji == "" && graylog2Url == "" && proxyAddress == ""
    {
      new;
      SetType(TYPE_NAME);
      SetColor("");
      SetCustomMessage("");
      SetWebhookUrl("");
      SetChannel("");
      SetUserName("");
      SetAddBacklogItems("");
      SetNotifyChannel(false);
      SetLinksName(false);
      SetIconUrl("");
      SetIconEmoji("");
      SetGraylog2Url("");
      SetProxyAddress("");
    }

    method SetType(v: string)
      modifies this
      ensures Current() == old(Current()).(typeName := v)
    {
      typeName := v;
    }

    method SetColor(v: string)
      modifies this
      ensures Current() == old(Current()).(color := v)
    {
      color := v;
    }

    method SetCustomMessage(v: string)
      modifies this
      ensures Current() == old(Current()).(customMessage := v)
    {
      customMessage := v;
    }

    method SetWebhookUrl(v: string)
      modifies this
      ensures Current() == old(Current()).(webhookUrl := v)
    {
      webhookUrl := v;
    }

    method SetChannel(v: string)
      modifies this
      ensures Current() == old(Current()).(channel := v)
    {
      channel := v;
    }

    method SetUserName(v: string)
      modifies this
      ensures Current() == old(Current()).(userName := v)
    {
      userName := v;
    }

    method SetAddBacklogItems(v: string)
      modifies this
      ensures Current() == old(Current()).(addBacklogItems := v)
    {
      addBacklogItems := v;
    }

    method SetNotifyChannel(v: bool)
      modifies this
      ensures Current() == old(Current()).(notifyChannel := v)
    {
      notifyChannel := v;
    }

    method SetLinksName(v: bool)
      modifies this
      ensures Current() == old(Current()).(linksName := v)
    {
      linksName := v;
    }

    method SetIconUrl(v: string)
      modifies this
      ensures Current() == old(Current()).(iconUrl := v)
    {
      iconUrl := v;
    }

    method SetIconEmoji(v: string)
      modifies this
      ensures Current() == old(Current()).(iconEmoji := v)
    {
      iconEmoji := v;
    }

    method SetGraylog2Url(v: string)
      modifies this
      ensures Current() == old(Current()).(graylog2Url := v)
    {
      graylog2Url := v;
    }

    method SetProxyAddress(v: string)
      modifies this
      ensures Current() == old(Current()).(proxyAddress := v)
    {
      proxyAddress := v;
    }

    /** `build()`: the record holds exactly what was last set, field by field. */
    method Build() returns (c: Config)
      ensures c == Current()
    {
      c := Config(typeName, color, customMessage, webhookUrl, channel, userName, addBacklogItems,
                  notifyChannel, linksName, iconUrl, iconEmoji, graylog2Url, proxyAddress);
    }
  }

  // ---------------------------------------------------------------------------
  // JSON binding: each accessor and its setter carry the same key

  /** The twelve settings, in declaration order. */
  datatype Key = Color | CustomMessage | WebhookUrl | Channel | UserName | AddBacklogItems
               | NotifyChannel | LinkNames | IconUrl | IconEmoji | Graylog2Url | ProxyAddress

  const AllKeys: seq<Key> :=
    [Color, CustomMessage, WebhookUrl, Channel, UserName, AddBacklogItems,
     NotifyChannel, LinkNames, IconUrl, IconEmoji, Graylog2Url, ProxyAddress]

  /** The JSON key an accessor and its setter are annotated with. */
  function Name(k: Key): string {
    match k
    case Color => CK_COLOR
    case CustomMessage => CK_CUSTOM_MESSAGE
    case WebhookUrl => CK_WEBHOOK_URL
    case Channel => CK_CHANNEL
    case UserName => CK_USER_NAME
    case AddBacklogItems => CK_ADD_BLITEMS
    case NotifyChannel => CK_NOTIFY_CHANNEL
    case LinkNames => CK_LINK_NAMES
    case IconUrl => CK_ICON_URL
    case IconEmoji => CK_ICON_EMOJI
    case Graylog2Url => CK_GRAYLOG2_URL
    case ProxyAddress => CK_PROXY_ADDRESS
  }

  /** The setting a JSON key binds to, if any. */
  function KeyOf(s: string): (r: Option<Key>)
    ensures r.Some? ==> Name(r.value) == s
    ensures r.None? ==> forall k :: Name(k) != s
  {
    if s == CK_COLOR then Some(Color)
    else if s == CK_CUSTOM_MESSAGE then Some(CustomMessage)
    else if s == CK_WEBHOOK_URL then Some(WebhookUrl)
    else if s == CK_CHANNEL then Some(Channel)
    else if s == CK_USER_NAME then Some(UserName)
    else if s == CK_ADD_BLITEMS then Some(AddBacklogItems)
    else if s == CK_NOTIFY_CHANNEL then Some(NotifyChannel)
    else if s == CK_LINK_NAMES then Some(LinkNames)
    else if s == CK_ICON_URL then Some(IconUrl)
    else if s == CK_ICON_EMOJI then Some(IconEmoji)
    else if s == CK_GRAYLOG2_URL then Some(Graylog2Url)
    else if s == CK_PROXY_ADDRESS then Some(ProxyAddress)
    else None
  }

  /** Every key binds back to its own setting: no two settings share a key. */
  lemma KeyOfName(k: Key)
    ensures KeyOf(Name(k)) == Some(k)
  {
    match k
    case Color =>
    case CustomMessage =>
    case WebhookUrl =>
    case Channel =>
    case UserName =>
    case AddBacklogItems =>
    case NotifyChannel =>
    case LinkNames =>
    case IconUrl =>
    case IconEmoji =>
    case Graylog2Url =>
    case ProxyAddress =>
  }

  /** The twelve key constants are pairwise distinct. */
  lemma NamesDistinct()
    ensures forall a, b :: Name(a) == Name(b) ==> a == b
    ensures forall i, j :: 0 <= i < j < |AllKeys| ==> Name(AllKeys[i]) != Name(AllKeys[j])
  {
    forall a, b | Name(a) == Name(b)
      ensures a == b
    {
      KeyOfName(a);
      KeyOfName(b);
    }
  }

  lemma InAllKeys(k: Key)
    ensures k in AllKeys
  {
    match k
    case Color =>
    case CustomMessage =>
    case WebhookUrl =>
    case Channel =>
    case UserName =>
    case AddBacklogItems =>
    case NotifyChannel =>
    case LinkNames =>
    case IconUrl =>
    case IconEmoji =>
    case Graylog2Url =>
    case ProxyAddress =>
  }

  /** The set of JSON keys the configuration uses. */
  function KeyNames(): (ks: set<string>)
    ensures forall s :: s in ks <==> KeyOf(s).Some?
  {
    forall s | KeyOf(s).Some?
      ensures s in set k | k in AllKeys :: Name(k)
    {
      assert KeyOf(s).value in AllKeys;
    }
    set k | k in AllKeys :: Name(k)
  }

  /** A JSON property value as the configuration uses it. */
  datatype Json = JString(s: string) | JBool(b: bool)

  /** The two flags take booleans, every other setting a string. */
  predicate Fits(k: Key, v: Json) {
    if k == NotifyChannel || k == LinkNames then v.JBool? else v.JString?
  }

  /** The accessor annotated with `Name(k)`. */
  function Get(c: Config, k: Key): (v: Json)
    ensures Fits(k, v)
  {
    match k
    case Color => JString(c.color)
    case CustomMessage => JString(c.customMessage)
    case WebhookUrl => JString(c.webhookUrl)
    case Channel => JString(c.channel)
    case UserName => JString(c.userName)
    case AddBacklogItems => JString(c.addBacklogItems)
    case NotifyChannel => JBool(c.notifyChannel)
    case LinkNames => JBool(c.linksName)
    case IconUrl => JString(c.iconUrl)
    case IconEmoji => JString(c.iconEmoji)
    case Graylog2Url => JString(c.graylog2Url)
    case ProxyAddress => JString(c.proxyAddress)
  }

  /** The setter annotated with `Name(k)`, applied to a built record. */
  function Put(c: Config, k: Key, v: Json): Config
    requires Fits(k, v)
  {
    match k
    case Color => c.(color := v.s)
    case CustomMessage => c.(customMessage := v.s)
    case WebhookUrl => c.(webhookUrl := v.s)
    case Channel => c.(channel := v.s)
    case UserName => c.(userName := v.s)
    case AddBacklogItems => c.(addBacklogItems := v.s)
    case NotifyChannel => c.(notifyChannel := v.b)
    case LinkNames => c.(linksName := v.b)
    case IconUrl => c.(iconUrl := v.s)
    case IconEmoji => c.(iconEmoji := v.s)
    case Graylog2Url => c.(graylog2Url := v.s)
    case ProxyAddress => c.(proxyAddress := v.s)
  }

  /** A setter is read back by the accessor with the same key, and changes no other setting. */
  lemma PutThenGet(c: Config, k: Key, v: Json, k': Key)
    requires Fits(k, v)
    ensures Get(Put(c, k, v), k') == if k' == k then v else Get(c, k')
    ensures Put(c, k, v).typeName == c.typeName
  {
  }

  /** Setting a field to what its accessor returns changes nothing. */
  lemma PutOwnValue(c: Config, k: Key)
    ensures Put(c, k, Get(c, k)) == c
  {
  }

  /** Every JSON property is acceptable to the setter its key selects; other keys bind nothing. */
  predicate AllFit(m: map<string, Json>) {
    forall s :: s in m && KeyOf(s).Some? ==> Fits(KeyOf(s).value, m[s])
  }

  /** The configuration serialised under its twelve keys. */
  function ToMap(c: Config): (m: map<string, Json>)
    ensures m.Keys == KeyNames()
    ensures forall k :: Name(k) in m && m[Name(k)] == Get(c, k)
  {
    NamesDistinct();
    var m := map k | k in AllKeys :: Name(k) := Get(c, k);
    forall k ensures k in AllKeys {
      InAllKeys(k);
    }
    m
  }

  /** Every setting, as a set. */
  function AllKeySet(): (ks: set<Key>)
    ensures forall k :: k in ks
  {
    forall k ensures k in AllKeys {
      InAllKeys(k);
    }
    set k | k in AllKeys
  }

  /**
   * The value `k`'s setter has received once the setters of the settings in
   * `dk` have run on the properties of `m`; otherwise the `create()` default.
   */
  function ValueAt(m: map<string, Json>, dk: set<Key>, k: Key): (v: Json)
    ensures Fits(k, v)
  {
    if k in dk && Name(k) in m && Fits(k, m[Name(k)]) then m[Name(k)] else Get(Defaults(), k)
  }

  /** The builder's record once the setters of the settings in `dk` have run. */
  function Bound(m: map<string, Json>, dk: set<Key>): Config {
    Config(TYPE_NAME,
           ValueAt(m, dk, Color).s,
           ValueAt(m, dk, CustomMessage).s,
           ValueAt(m, dk, WebhookUrl).s,
           ValueAt(m, dk, Channel).s,
           ValueAt(m, dk, UserName).s,
           ValueAt(m, dk, AddBacklogItems).s,
           ValueAt(m, dk, NotifyChannel).b,
           ValueAt(m, dk, LinkNames).b,
           ValueAt(m, dk, IconUrl).s,
           ValueAt(m, dk, IconEmoji).s,
           ValueAt(m, dk, Graylog2Url).s,
           ValueAt(m, dk, ProxyAddress).s)
  }

  lemma GetBound(m: map<string, Json>, dk: set<Key>, k: Key)
    ensures Get(Bound(m, dk), k) == ValueAt(m, dk, k)
  {
  }

  /** Two records with the same type name that agree on every accessor are equal. */
  lemma GetInjective(c: Config, d: Config)
    requires c.typeName == d.typeName
    requires forall k :: Get(c, k) == Get(d, k)
    ensures c == d
  {
    assert Get(c, Color) == Get(d, Color) && Get(c, CustomMessage) == Get(d, CustomMessage);
    assert Get(c, WebhookUrl) == Get(d, WebhookUrl) && Get(c, Channel) == Get(d, Channel);
    assert Get(c, UserName) == Get(d, UserName) && Get(c, AddBacklogItems) == Get(d, AddBacklogItems);
    assert Get(c, NotifyChannel) == Get(d, NotifyChannel) && Get(c, LinkNames) == Get(d, LinkNames);
    assert Get(c, IconUrl) == Get(d, IconUrl) && Get(c, IconEmoji) == Get(d, IconEmoji);
    assert Get(c, Graylog2Url) == Get(d, Graylog2Url) && Get(c, ProxyAddress) == Get(d, ProxyAddress);
  }

  /**
   * Jackson's step for one property: the setter its key selects, when the value
   * has the kind that setter takes; a key no setter carries changes nothing.
   */
  function Step(c: Config, s: string, v: Json): Config {
    match KeyOf(s)
    case None => c
    case Some(k) => if Fits(k, v) then Put(c, k, v) else c
  }

  lemma GetStep(c: Config, key: Key, v: Json, k: Key)
    ensures Get(Step(c, Name(key), v), k) == if k == key && Fits(key, v) then v else Get(c, k)
    ensures Step(c, Name(key), v).typeName == c.typeName
  {
    KeyOfName(key);
    if Fits(key, v) {
      PutThenGet(c, key, v, k);
    }
  }

  /** A record that differs from `c` only as the setter for `key` given `v` would make it is that step. */
  lemma {:induction false} SetterStep(c: Config, d: Config, key: Key, v: Json)
    requires d.typeName == c.typeName
    requires forall k :: Get(d, k) == if k == key && Fits(key, v) then v else Get(c, k)
    ensures d == Step(c, Name(key), v)
  {
    forall k ensures Get(d, k) == Get(Step(c, Name(key), v), k) {
      GetStep(c, key, v, k);
    }
    GetStep(c, key, v, Color);
    GetInjective(d, Step(c, Name(key), v));
  }

  /** Applying one more present key changes just its setting, and only when its value has the right kind. */
  lemma ValueAtStep(m: map<string, Json>, dk: set<Key>, key: Key, k: Key)
    requires Name(key) in m
    ensures ValueAt(m, dk + {key}, k) == if k == key && Fits(key, m[Name(key)]) then m[Name(key)] else ValueAt(m, dk, k)
  {
  }

  /** Running one more setter on the bound record is one step on its property. */
  lemma {:induction false} BoundStep(m: map<string, Json>, dk: set<Key>, key: Key)
    requires Name(key) in m
    ensures Bound(m, dk + {key}) == Step(Bound(m, dk), Name(key), m[Name(key)])
  {
    var v := m[Name(key)];
    forall k ensures Get(Bound(m, dk + {key}), k) == if k == key && Fits(key, v) then v else Get(Bound(m, dk), k) {
      GetBound(m, dk + {key}, k);
      GetBound(m, dk, k);
      ValueAtStep(m, dk, key, k);
    }
    SetterStep(Bound(m, dk), Bound(m, dk + {key}), key, v);
  }

  /** The builder after `create()` and one step per property of `order`, in that order. */
  function Replay(m: map<string, Json>, order: seq<string>): Config
    requires forall x :: x in order ==> x in m
    decreases |order|
  {
    if order == [] then Defaults()
    else
      var last := order[|order| - 1];
      Step(Replay(m, order[..|order| - 1]), last, m[last])
  }

  /** The settings whose keys occur in `order`. */
  function Selected(order: seq<string>): set<Key> {
    set k | k in AllKeys && Name(k) in order
  }

  lemma SelectedStep(order: seq<string>, s: string)
    ensures KeyOf(s).Some? ==> Selected(order + [s]) == Selected(order) + {KeyOf(s).value}
    ensures KeyOf(s).None? ==> Selected(order + [s]) == Selected(order)
  {
    forall k ensures k in Selected(order + [s]) <==> k in Selected(order) || KeyOf(s) == Some(k) {
      InAllKeys(k);
      KeyOfName(k);
      assert Name(k) in order + [s] <==> Name(k) in order || Name(k) == s;
    }
  }

  /** The order in which the properties arrive does not matter: every key selects a setting of its own. */
  lemma {:induction false} ReplayAnyOrder(m: map<string, Json>, order: seq<string>)
    requires forall x :: x in order ==> x in m
    ensures Replay(m, order) == Bound(m, Selected(order))
    decreases |order|
  {
    if order == [] {
      BoundNothing(m, Selected(order));
    } else {
      var init, last := order[..|order| - 1], order[|order| - 1];
      assert order == init + [last];
      ReplayAnyOrder(m, init);
      SelectedStep(init, last);
      match KeyOf(last) {
        case None =>
        case Some(key) =>
          BoundStep(m, Selected(init), key);
      }
    }
  }

  /**
   * Deserialisation through the builder: it fails when a setting is given the
   * wrong kind of value; otherwise each present key sets its setting and every
   * absent one keeps its `create()` default.
   */
  function FromMap(m: map<string, Json>): (r: Option<Config>)
    ensures r.Some? <==> AllFit(m)
    ensures r.Some? ==> r.value.typeName == TYPE_NAME
    ensures r.Some? ==> forall k :: Get(r.value, k) == if Name(k) in m then m[Name(k)] else Get(Defaults(), k)
  {
    if AllFit(m) then
      var c := Bound(m, AllKeySet());
      forall k ensures Get(c, k) == if Name(k) in m then m[Name(k)] else Get(Defaults(), k) {
        GetBound(m, AllKeySet(), k);
        KeyOfName(k);
      }
      Some(c)
    else None
  }

  /** Nothing applied yet is the builder's default. */
  lemma BoundNothing(m: map<string, Json>, dk: set<Key>)
    requires forall k :: k in dk ==> Name(k) !in m
    ensures Bound(m, dk) == Defaults()
  {
    forall k ensures Get(Bound(m, dk), k) == Get(Defaults(), k) {
      GetBound(m, dk, k);
    }
    GetInjective(Bound(m, dk), Defaults());
  }

  /** Only the settings whose keys are present matter. */
  lemma {:induction false} BoundPresent(m: map<string, Json>, dk: set<Key>)
    requires forall k :: k in dk <==> Name(k) in m
    ensures Bound(m, dk) == Bound(m, AllKeySet())
  {
    forall k ensures Get(Bound(m, dk), k) == Get(Bound(m, AllKeySet()), k) {
      GetBound(m, dk, k);
      GetBound(m, AllKeySet(), k);
    }
    GetInjective(Bound(m, dk), Bound(m, AllKeySet()));
  }

  /** A setting absent from the JSON object keeps its `create()` default. */
  lemma {:induction false} MissingKeyKeepsDefault(m: map<string, Json>, k: Key)
    requires AllFit(m)
    requires Name(k) !in m
    ensures FromMap(m).Some? && Get(FromMap(m).value, k) == Get(Defaults(), k)
  {
    GetBound(m, AllKeySet(), k);
  }

  /** Serialising a built configuration and deserialising it gives it back field for field. */
  lemma {:induction false} RoundTrip(c: Config)
    requires c.typeName == TYPE_NAME
    ensures FromMap(ToMap(c)) == Some(c)
  {
    var m := ToMap(c);
    forall s | s in m && KeyOf(s).Some?
      ensures Fits(KeyOf(s).value, m[s])
    {
      assert m[Name(KeyOf(s).value)] == Get(c, KeyOf(s).value);
    }
    forall k ensures Get(Bound(m, AllKeySet()), k) == Get(c, k) {
      GetBound(m, AllKeySet(), k);
    }
    GetInjective(Bound(m, AllKeySet()), c);
  }

  /** A property a setter took is what the matching accessor writes back. */
  lemma {:induction false} PropertyKept(m: map<string, Json>, k: Key)
    requires AllFit(m) && Name(k) in m
    ensures ToMap(Bound(m, AllKeySet()))[Name(k)] == m[Name(k)]
  {
    KeyOfName(k);
    GetBound(m, AllKeySet(), k);
  }

  lemma {:induction false} ToMapBound(m: map<string, Json>)
    requires m.Keys == KeyNames()
    requires AllFit(m)
    ensures ToMap(Bound(m, AllKeySet())) == m
  {
    var m' := ToMap(Bound(m, AllKeySet()));
    assert m'.Keys == m.Keys;
    forall s | s in m
      ensures m'[s] == m[s]
    {
      PropertyKept(m, KeyOf(s).value);
    }
    SameEntries(m', m);
  }

  lemma SameEntries(a: map<string, Json>, b: map<string, Json>)
    requires a.Keys == b.Keys
    requires forall s :: s in a ==> a[s] == b[s]
    ensures a == b
  {
  }

  /** Deserialising a complete, well-kinded object and serialising the result gives the object back. */
  lemma {:induction false} RoundTripFromJson(m: map<string, Json>)
    requires m.Keys == KeyNames()
    requires AllFit(m)
    ensures FromMap(m).Some? && ToMap(FromMap(m).value) == m
  {
    assert FromMap(m) == Some(Bound(m, AllKeySet()));
    ToMapBound(m);
  }

  /** The builder setter whose annotation carries the key `Name(k)`, called with `v`. */
  method CallSetter(b: Builder, k: Key, v: Json)
    requires Fits(k, v)
    modifies b
    ensures b.Current() == Put(old(b.Current()), k, v)
  {
    match k {
      case Color => b.SetColor(v.s);
      case CustomMessage => b.SetCustomMessage(v.s);
      case WebhookUrl => b.SetWebhookUrl(v.s);
      case Channel => b.SetChannel(v.s);
      case UserName => b.SetUserName(v.s);
      case AddBacklogItems => b.SetAddBacklogItems(v.s);
      case NotifyChannel => b.SetNotifyChannel(v.b);
      case LinkNames => b.SetLinksName(v.b);
      case IconUrl => b.SetIconUrl(v.s);
      case IconEmoji => b.SetIconEmoji(v.s);
      case Graylog2Url => b.SetGraylog2Url(v.s);
      case ProxyAddress => b.SetProxyAddress(v.s);
    }
  }

  /**
   * Deserialisation as the builder annotations drive it: `create()`, then for
   * each property the setter carrying its key, then `build()`.
   */
  method Deserialize(m: map<string, Json>) returns (r: Option<Config>)
    ensures r == FromMap(m)
  {
    var b := new Builder.Create();
    var todo := m.Keys;
    ghost var order: seq<string> := [];
    while todo != {}
      invariant todo <= m.Keys
      invariant forall x :: x in order <==> x in m && x !in todo
      invariant b.Current() == Replay(m, order)
      invariant forall x :: x in order && KeyOf(x).Some? ==> Fits(KeyOf(x).value, m[x])
      decreases todo
    {
      var s :| s in todo;
      var v := m[s];
      match KeyOf(s) {
        case None =>
        case Some(k) =>
          if !Fits(k, v) {
            assert !AllFit(m) by {
              assert s in m && KeyOf(s) == Some(k);
            }
            return None;
          }
          CallSetter(b, k, v);
      }
      assert (order + [s])[..|order|] == order;
      order := order + [s];
      todo := todo - {s};
    }
    ReplayAnyOrder(m, order);
    forall k ensures k in Selected(order) <==> Name(k) in m {
      InAllKeys(k);
    }
    BoundPresent(m, Selected(order));
    assert AllFit(m);
    var c := b.Build();
    r := Some(c);
  }

  // ---------------------------------------------------------------------------
  // validate()

  /** Field name to the messages recorded against it. */
  datatype ValidationResult = ValidationResult(errors: map<string, seq<string>>) {

    /** Append `message` to the messages recorded under `field`. */
    function AddError(field: string, message: string): (r: ValidationResult)
      ensures r.errors.Keys == errors.Keys + {field}
      ensures r.errors[field] == (if field in errors then errors[field] else []) + [message]
      ensures forall f :: f in errors && f != field ==> r.errors[f] == errors[f]
    {
      ValidationResult(errors[field := (if field in errors then errors[field] else []) + [message]])
    }

    predicate Failed() {
      errors != map[]
    }
  }

  /**
   * `validate()` as written: it records the empty-webhook error in a local
   * result and then returns null. `collected` is that discarded result.
   */
  method Validate(c: Config) returns (r: Option<ValidationResult>, ghost collected: ValidationResult)
    ensures r == None
    ensures collected == Validated(c)
  {
    var validation := ValidationResult(map[]);
    if c.webhookUrl == "" {
      validation := validation.AddError(CK_WEBHOOK_URL, WEBHOOK_URL_EMPTY);
    }
    collected := validation;
    return None, collected;
  }

  /** The errors `validate()` collects: one message under the webhook key exactly when the webhook URL is empty. */
  function Validated(c: Config): (v: ValidationResult)
    ensures v.Failed() <==> c.webhookUrl == ""
    ensures v.errors.Keys <= {CK_WEBHOOK_URL}
    ensures c.webhookUrl == "" ==> v.errors[CK_WEBHOOK_URL] == [WEBHOOK_URL_EMPTY]
  {
    var empty := ValidationResult(map[]);
    if c.webhookUrl == "" then empty.AddError(CK_WEBHOOK_URL, WEBHOOK_URL_EMPTY) else empty
  }

  /** `validate()` as evidently intended: the collected errors are returned. */
  method ValidateReporting(c: Config) returns (r: Option<ValidationResult>)
    ensures r.Some? && (r.value.Failed() <==> c.webhookUrl == "")
    ensures r == Some(Validated(c))
  {
    var validation := ValidationResult(map[]);
    if c.webhookUrl == "" {
      validation := validation.AddError(CK_WEBHOOK_URL, WEBHOOK_URL_EMPTY);
    }
    r := Some(validation);
  }

  /** The defaults have an empty webhook URL, yet `validate()` reports nothing for them. */
  method DefaultsPassValidate() returns (r: Option<ValidationResult>, ghost lost: ValidationResult)
    ensures r == None && lost.Failed() && CK_WEBHOOK_URL in lost.errors && lost.errors[CK_WEBHOOK_URL] == [WEBHOOK_URL_EMPTY]
  {
    r, lost := Validate(Defaults());
  }

  /** The non-blank markers are stricter than `validate()`: well-formed configurations have no error... */
  lemma WellFormedPassesValidation(c: Config)
    requires WellFormed(c)
    ensures !Validated(c).Failed()
  {
  }

  /** ...but a whitespace-only webhook URL passes `validate()` while breaking the marker. */
  lemma BlankWebhookSlipsThrough(c: Config)
    requires c.webhookUrl == " "
    ensures !Validated(c).Failed() && !WellFormed(c)
  {
    assert c.webhookUrl[0] <= ' ';
  }
}
