/**
 * One RSS article: its identity derived from the feed item's fields, its
 * typed fields, the raw field bag kept for persistence, the one-way "read"
 * flag with its `read` signal, and the conversion to and from the JSON
 * object the article is stored as.
 */
module Rss {
  import opened Variant

  // The field names of an article's field bag.
  const KeyId: string := "id"
  const KeyDate: string := "date"
  const KeyTitle: string := "title"
  const KeyAuthor: string := "author"
  const KeyDescription: string := "description"
  const KeyTorrentURL: string := "torrentURL"
  const KeyLink: string := "link"
  const KeyIsRead: string := "isRead"

  /** The message of the exception a field bag without any identity raises. */
  const BadArticleData: string := "Bad RSS Article data"

  datatype Option<T> = None | Some(value: T)

  /** A construction either succeeds or fails with the exception's message. */
  datatype Result<T> = Ok(value: T) | Err(error: string)

  /* ---------------------------------------------------------------------
   * Identity: the first non-empty of the id, the torrent URL and the title.
   * --------------------------------------------------------------------- */

  /** The fields an article's guid is taken from, in order of preference. */
  const IdentityKeys: seq<string> := [KeyId, KeyTorrentURL, KeyTitle]

  /** The text of the first of `keys` whose text is not empty, if any. */
  function FirstNonEmpty(hash: Object, keys: seq<string>): (r: Option<string>)
    ensures r.Some? ==> r.value != ""
  {
    if keys == [] then None
    else if TextAt(hash, keys[0]) != "" then Some(TextAt(hash, keys[0]))
    else FirstNonEmpty(hash, keys[1..])
  }

  /** When `keys[k]` is the first key with a non-empty text, its text is chosen. */
  lemma {:induction false} FirstNonEmptyAt(hash: Object, keys: seq<string>, k: nat)
    requires k < |keys| && TextAt(hash, keys[k]) != ""
    requires forall j :: 0 <= j < k ==> TextAt(hash, keys[j]) == ""
    ensures FirstNonEmpty(hash, keys) == Some(TextAt(hash, keys[k]))
  {
    if k > 0 {
      assert TextAt(hash, keys[0]) == "";
      FirstNonEmptyAt(hash, keys[1..], k - 1);
    }
  }

  /** Nothing is chosen exactly when every key's text is empty. */
  lemma {:induction false} FirstNonEmptyNone(hash: Object, keys: seq<string>)
    ensures FirstNonEmpty(hash, keys).None? <==> forall i :: 0 <= i < |keys| ==> TextAt(hash, keys[i]) == ""
  {
    if keys != [] {
      FirstNonEmptyNone(hash, keys[1..]);
      assert forall i :: 1 <= i < |keys| ==> keys[i] == keys[1..][i - 1];
    }
  }

  /** The guid a field bag yields, or None when it yields none. */
  function Identity(hash: Object): (r: Option<string>)
    ensures r.Some? ==> r.value != ""
  {
    FirstNonEmpty(hash, IdentityKeys)
  }

  /** The fallback chain spelled out: id, else torrent URL, else title, else nothing. */
  lemma IdentityFallback(hash: Object)
    ensures TextAt(hash, KeyId) != "" ==> Identity(hash) == Some(TextAt(hash, KeyId))
    ensures TextAt(hash, KeyId) == "" && TextAt(hash, KeyTorrentURL) != "" ==>
              Identity(hash) == Some(TextAt(hash, KeyTorrentURL))
    ensures TextAt(hash, KeyId) == "" && TextAt(hash, KeyTorrentURL) == "" && TextAt(hash, KeyTitle) != "" ==>
              Identity(hash) == Some(TextAt(hash, KeyTitle))
    ensures Identity(hash).None? <==>
              TextAt(hash, KeyId) == "" && TextAt(hash, KeyTorrentURL) == "" && TextAt(hash, KeyTitle) == ""
  {
    var t0, t1, t2 := TextAt(hash, KeyId), TextAt(hash, KeyTorrentURL), TextAt(hash, KeyTitle);
    if t0 != "" {
      FirstNonEmptyAt(hash, IdentityKeys, 0);
    } else if t1 != "" {
      FirstNonEmptyAt(hash, IdentityKeys, 1);
    } else if t2 != "" {
      FirstNonEmptyAt(hash, IdentityKeys, 2);
    }
    FirstNonEmptyNone(hash, IdentityKeys);
  }

  /* ---------------------------------------------------------------------
   * The state of an article as a value, and the pure specifications of the
   * two constructors, `markAsRead` and `toJsonObject`.
   * --------------------------------------------------------------------- */

  /** Everything an article holds: its typed fields and its raw field bag. */
  datatype ArticleState = ArticleState(
    guid: string,
    date: DateTime,
    title: string,
    author: string,
    description: string,
    torrentURL: string,
    link: string,
    isRead: bool,
    data: Object)

  /** The typed fields agree with the raw field bag: the guid is non-empty and
      stored under the id key, and every other typed field reads back from
      its own key with that key's conversion. */
  predicate Synced(s: ArticleState)
  {
    && s.guid != ""
    && KeyId in s.data && s.data[KeyId] == Text(s.guid)
    && s.date == DateAt(s.data, KeyDate)
    && s.title == TextAt(s.data, KeyTitle)
    && s.author == TextAt(s.data, KeyAuthor)
    && s.description == TextAt(s.data, KeyDescription)
    && s.torrentURL == TextAt(s.data, KeyTorrentURL)
    && s.link == TextAt(s.data, KeyLink)
    && s.isRead == BoolAt(s.data, KeyIsRead, false)
  }

  /** The article the field-bag constructor builds, or its exception. */
  function ArticleFromHash(hash: Object): (r: Result<ArticleState>)
    ensures r.Err? <==> Identity(hash).None?
    ensures r.Err? ==> r.error == BadArticleData
    ensures r.Ok? ==> r.value.guid == Identity(hash).value && Synced(r.value)
    ensures r.Ok? ==> r.value.data.Keys == hash.Keys + {KeyId}
  {
    match Identity(hash)
    case None => Err(BadArticleData)
    case Some(guid) =>
      Ok(ArticleState(guid, DateAt(hash, KeyDate), TextAt(hash, KeyTitle), TextAt(hash, KeyAuthor),
                      TextAt(hash, KeyDescription), TextAt(hash, KeyTorrentURL), TextAt(hash, KeyLink),
                      BoolAt(hash, KeyIsRead, false), hash[KeyId := Text(guid)]))
  }

  /** The article the JSON constructor builds: the field-bag article whose date
      is then parsed from the JSON text and written back into the field bag. */
  function ArticleFromJson(json: Object, parse: string -> DateTime): (r: Result<ArticleState>)
    ensures r.Err? <==> ArticleFromHash(json).Err?
    ensures r.Err? ==> r.error == BadArticleData
    ensures r.Ok? ==> Synced(r.value) && r.value.guid == ArticleFromHash(json).value.guid
    ensures r.Ok? ==> r.value.date == parse(TextAt(json, KeyDate))
    ensures r.Ok? ==> KeyDate in r.value.data && r.value.data[KeyDate] == Stamp(r.value.date)
  {
    match ArticleFromHash(json)
    case Err(e) => Err(e)
    case Ok(s) =>
      var d := parse(TextAt(json, KeyDate));
      Ok(s.(date := d, data := s.data[KeyDate := Stamp(d)]))
  }

  /** The JSON object of an article: its field bag with the date as text. */
  function Serialize(s: ArticleState, format: DateTime -> string): (json: Object)
    ensures json.Keys == s.data.Keys + {KeyDate}
    ensures forall k :: k in s.data && k != KeyDate ==> json[k] == s.data[k]
    ensures json[KeyDate] == Text(format(s.date))
  {
    s.data[KeyDate := Text(format(s.date))]
  }

  /** The state `markAsRead` leaves behind. */
  function MarkedRead(s: ArticleState): (t: ArticleState)
    ensures t.isRead
    ensures s.isRead ==> t == s
    ensures t.(isRead := s.isRead, data := s.data) == s
    ensures t.data.Keys == s.data.Keys + (if s.isRead then {} else {KeyIsRead})
    ensures forall k :: k in s.data && k != KeyIsRead ==> t.data[k] == s.data[k]
    ensures !s.isRead ==> t.data[KeyIsRead] == Flag(true)
  {
    if s.isRead then s else s.(isRead := true, data := s.data[KeyIsRead := Flag(true)])
  }

  /** How many `read` signals `markAsRead` emits from a state. */
  function ReadSignals(s: ArticleState): (n: nat)
    ensures n <= 1
    ensures n == 1 <==> !s.isRead
  {
    if s.isRead then 0 else 1
  }

  /* ---------------------------------------------------------------------
   * Properties of construction.
   * --------------------------------------------------------------------- */

  /** Construction fails exactly when id, torrent URL and title are all
      empty or missing, and a constructed guid is never empty. */
  lemma ConstructionFailsIffNoIdentity(hash: Object)
    ensures ArticleFromHash(hash).Err? <==>
              TextAt(hash, KeyId) == "" && TextAt(hash, KeyTorrentURL) == "" && TextAt(hash, KeyTitle) == ""
    ensures ArticleFromHash(hash).Err? ==> ArticleFromHash(hash).error == BadArticleData
    ensures ArticleFromHash(hash).Ok? ==> ArticleFromHash(hash).value.guid != ""
  {
    IdentityFallback(hash);
  }

  /** A non-empty id is the guid. */
  lemma GuidFromId(hash: Object)
    requires TextAt(hash, KeyId) != ""
    ensures ArticleFromHash(hash).Ok? && ArticleFromHash(hash).value.guid == TextAt(hash, KeyId)
  {
    IdentityFallback(hash);
  }

  /** Without an id, a non-empty torrent URL is the guid. */
  lemma GuidFromTorrentUrl(hash: Object)
    requires TextAt(hash, KeyId) == "" && TextAt(hash, KeyTorrentURL) != ""
    ensures ArticleFromHash(hash).Ok? && ArticleFromHash(hash).value.guid == TextAt(hash, KeyTorrentURL)
  {
    IdentityFallback(hash);
  }

  /** Without an id or a torrent URL, a non-empty title is the guid. */
  lemma GuidFromTitle(hash: Object)
    requires TextAt(hash, KeyId) == "" && TextAt(hash, KeyTorrentURL) == "" && TextAt(hash, KeyTitle) != ""
    ensures ArticleFromHash(hash).Ok? && ArticleFromHash(hash).value.guid == TextAt(hash, KeyTitle)
  {
    IdentityFallback(hash);
  }

  /** After construction the field bag is the input with the id set to the
      guid: no key is added but the id, no other entry changes. */
  lemma DataAfterConstruction(hash: Object)
    requires ArticleFromHash(hash).Ok?
    ensures var s := ArticleFromHash(hash).value;
      && s.data.Keys == hash.Keys + {KeyId}
      && s.data[KeyId] == Text(s.guid)
      && forall k :: k in hash && k != KeyId ==> s.data[k] == hash[k]
  {
  }

  /** The typed fields start out as their keys' values: the empty string for
      a missing text, unread unless the bag says otherwise. */
  lemma InitialFields(hash: Object)
    requires ArticleFromHash(hash).Ok?
    ensures var s := ArticleFromHash(hash).value;
      && s.title == TextAt(hash, KeyTitle) && s.author == TextAt(hash, KeyAuthor)
      && s.description == TextAt(hash, KeyDescription) && s.link == TextAt(hash, KeyLink)
      && s.torrentURL == TextAt(hash, KeyTorrentURL) && s.date == DateAt(hash, KeyDate)
      && (KeyIsRead !in hash ==> !s.isRead)
      && (KeyIsRead in hash ==> (s.isRead <==> hash[KeyIsRead] == Flag(true)))
  {
  }

  /** A constructed article's typed fields agree with its field bag. */
  lemma ConstructedIsSynced(hash: Object)
    requires ArticleFromHash(hash).Ok?
    ensures Synced(ArticleFromHash(hash).value)
  {
  }

  /** The JSON constructor fails exactly as the field-bag constructor does; on
      success the date is the parsed JSON text, stored again in the field bag,
      and every other field is the field-bag constructor's. */
  lemma JsonConstruction(json: Object, parse: string -> DateTime)
    ensures ArticleFromJson(json, parse).Err? <==> ArticleFromHash(json).Err?
    ensures ArticleFromJson(json, parse).Ok? ==>
      var s, h := ArticleFromJson(json, parse).value, ArticleFromHash(json).value;
      && s.date == parse(TextAt(json, KeyDate))
      && KeyDate in s.data && s.data[KeyDate] == Stamp(s.date)
      && s == h.(date := s.date, data := h.data[KeyDate := Stamp(s.date)])
      && Synced(s)
  {
  }

  /* ---------------------------------------------------------------------
   * Properties of markAsRead.
   * --------------------------------------------------------------------- */

  /** Afterwards the article is read and its field bag says so; the state
      stays in sync; nothing else changes. */
  lemma MarkedReadEffect(s: ArticleState)
    requires Synced(s)
    ensures var t := MarkedRead(s);
      && t.isRead && KeyIsRead in t.data && t.data[KeyIsRead] == Flag(true)
      && Synced(t)
      && t.(isRead := s.isRead, data := s.data) == s
      && t.data.Keys == s.data.Keys + {KeyIsRead}
      && forall k :: k in s.data && k != KeyIsRead ==> t.data[k] == s.data[k]
  {
  }

  /** A second call changes nothing and emits nothing. */
  lemma MarkedReadIdempotent(s: ArticleState)
    ensures MarkedRead(MarkedRead(s)) == MarkedRead(s)
    ensures ReadSignals(MarkedRead(s)) == 0
  {
  }

  /* ---------------------------------------------------------------------
   * Properties of the JSON form.
   * --------------------------------------------------------------------- */

  /** Reading back the JSON form of a synced article keeps its guid, read
      flag, texts and every raw field but the date, which becomes whatever the
      text format gives back for the formatted date. */
  lemma JsonRoundTrip(s: ArticleState, format: DateTime -> string, parse: string -> DateTime)
    requires Synced(s)
    ensures var d := parse(format(s.date));
      ArticleFromJson(Serialize(s, format), parse) == Ok(s.(date := d, data := s.data[KeyDate := Stamp(d)]))
  {
    var json := Serialize(s, format);
    assert TextAt(json, KeyId) == s.guid;
    IdentityFallback(json);
    var d := parse(format(s.date));
    assert json[KeyId := Text(s.guid)][KeyDate := Stamp(d)] == s.data[KeyDate := Stamp(d)];
  }

  /** An article read from JSON comes back unchanged from its own JSON form
      when the text format restores its date. */
  lemma JsonRoundTripExact(json: Object, format: DateTime -> string, parse: string -> DateTime)
    requires ArticleFromJson(json, parse).Ok?
    requires var s := ArticleFromJson(json, parse).value; parse(format(s.date)) == s.date
    ensures var s := ArticleFromJson(json, parse).value;
      ArticleFromJson(Serialize(s, format), parse) == Ok(s)
  {
    var s := ArticleFromJson(json, parse).value;
    JsonConstruction(json, parse);
    JsonRoundTrip(s, format, parse);
    assert s.data[KeyDate := Stamp(s.date)] == s.data;
  }

  /* ---------------------------------------------------------------------
   * The article object.
   * --------------------------------------------------------------------- */

  class Article {
    const guid: string
    const title: string
    const author: string
    const description: string
    const torrentURL: string
    const link: string
    var date: DateTime
    var isRead: bool
    var data: Object

    // Whether the article was built read, and the `read` signals it emitted.
    ghost const initiallyRead: bool
    ghost var readSignals: nat

    /** The article's state as a value. */
    function State(): ArticleState
      reads this
    {
      ArticleState(guid, date, title, author, description, torrentURL, link, isRead, data)
    }

    /** The object invariant: fields and field bag in sync, the read flag only
        ever set, and one `read` signal for the one transition to read. */
    ghost predicate Valid()
      reads this
    {
      && Synced(State())
      && (initiallyRead ==> isRead)
      && readSignals == (if isRead && !initiallyRead then 1 else 0)
    }

    /** The field assignments of the field-bag constructor, once its guid has
        been derived. */
    constructor (hash: Object, guid: string)
      requires Identity(hash) == Some(guid)
      ensures Valid() && readSignals == 0
      ensures State() == ArticleFromHash(hash).value
    {
      this.guid := guid;
      date := DateAt(hash, KeyDate);
      title := TextAt(hash, KeyTitle);
      author := TextAt(hash, KeyAuthor);
      description := TextAt(hash, KeyDescription);
      torrentURL := TextAt(hash, KeyTorrentURL);
      link := TextAt(hash, KeyLink);
      isRead := BoolAt(hash, KeyIsRead, false);
      initiallyRead := BoolAt(hash, KeyIsRead, false);
      data := hash[KeyId := Text(guid)];
      readSignals := 0;
    }

    /** The guid of a field bag, taken from the id, then the torrent URL, then
        the title; empty when all three are. */
    static method DeriveGuid(hash: Object) returns (guid: string)
      ensures guid == "" <==> Identity(hash).None?
      ensures guid != "" ==> Identity(hash) == Some(guid)
    {
      IdentityFallback(hash);
      guid := TextAt(hash, KeyId);
      if guid == "" {
        guid := TextAt(hash, KeyTorrentURL);
      }
      if guid == "" {
        guid := TextAt(hash, KeyTitle);
      }
    }

    /** The field-bag constructor: fails with `BadArticleData` when no guid
        can be derived. */
    static method FromHash(hash: Object) returns (r: Result<Article>)
      ensures r.Err? <==> ArticleFromHash(hash).Err?
      ensures r.Err? ==> r.error == BadArticleData
      ensures r.Ok? ==> fresh(r.value) && r.value.Valid() && r.value.readSignals == 0
      ensures r.Ok? ==> r.value.State() == ArticleFromHash(hash).value
    {
      var guid := DeriveGuid(hash);
      if guid == "" {
        return Err(BadArticleData);
      }
      var article := new Article(hash, guid);
      return Ok(article);
    }

    /** The JSON constructor: the field-bag constructor, then the date parsed
        from its text and written back into the field bag. */
    static method FromJson(json: Object, parse: string -> DateTime) returns (r: Result<Article>)
      ensures r.Err? <==> ArticleFromJson(json, parse).Err?
      ensures r.Err? ==> r.error == BadArticleData
      ensures r.Ok? ==> fresh(r.value) && r.value.Valid() && r.value.readSignals == 0
      ensures r.Ok? ==> r.value.State() == ArticleFromJson(json, parse).value
    {
      r := FromHash(json);
      if r.Ok? {
        var article := r.value;
        article.date := parse(TextAt(json, KeyDate));
        article.data := article.data[KeyDate := Stamp(article.date)];
      }
    }

    /** The torrent URL to download: the stored one, or the link when none is stored. */
    function TorrentUrl(): (url: string)
      ensures torrentURL != "" ==> url == torrentURL
      ensures torrentURL == "" ==> url == link
      ensures url == "" <==> torrentURL == "" && link == ""
    {
      if torrentURL == "" then link else torrentURL
    }

    /** Marks the article read; emits `read` only when it was unread. */
    method MarkAsRead()
      requires Valid()
      modifies this
      ensures Valid()
      ensures isRead && KeyIsRead in data && data[KeyIsRead] == Flag(true)
      ensures State() == MarkedRead(old(State()))
      ensures readSignals == old(readSignals) + ReadSignals(old(State()))
    {
      if !isRead {
        isRead := true;
        data := data[KeyIsRead := Flag(isRead)];
        readSignals := readSignals + 1;
      }
    }

    /** The JSON object of the article: every key of the field bag plus the
        date key; every entry but the date as stored; the date as text. */
    function ToJsonObject(format: DateTime -> string): (json: Object)
      reads this
      ensures json.Keys == data.Keys + {KeyDate}
      ensures forall k :: k in data && k != KeyDate ==> json[k] == data[k]
      ensures json[KeyDate] == Text(format(date))
    {
      Serialize(State(), format)
    }

    /** Whether an article was published strictly after a given date-time. */
    static function ArticleDateRecentThan(article: Article, date: DateTime): (r: bool)
      reads article
      ensures r ==> article.date.At? && article.date != date
      ensures article.date.At? && date.Invalid? ==> r
      ensures article.date.At? && date.At? ==> (r <==> article.date.msecs > date.msecs)
    {
      After(article.date, date)
    }
  }

  /** A feed item with a title and a link but no id and an empty torrent URL:
      its title is its guid, its link its torrent URL, and marking it read
      twice emits one `read` signal. */
  method Scenario()
  {
    var hash := map[KeyTitle := Text("Foo"), KeyLink := Text("http://a/b"), KeyTorrentURL := Text("")];
    GuidFromTitle(hash);
    var r := Article.FromHash(hash);
    var article := r.value;
    assert article.guid == "Foo" && article.TorrentUrl() == "http://a/b" && !article.isRead;
    article.MarkAsRead();
    article.MarkAsRead();
    assert article.isRead && article.readSignals == 1;
  }
}
