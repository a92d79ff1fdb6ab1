# RSS article model

A Dafny model of the RSS `Article` entity of qBittorrent
(`src/base/rss/rss_article.cpp`): one item of a syndication feed.

- **Identity.** An article is built from a field bag (a `QVariantHash`). Its guid is the first
  non-empty text among the `id`, `torrentURL` and `title` fields. When all three are empty or
  missing, construction throws ("Bad RSS Article data"). The stored field bag is the input with
  `id` set to the guid.
- **Typed fields.** `date`, `title`, `author`, `description`, `torrentURL`, `link` and `isRead`
  are read from their keys. Missing texts are empty, a missing read flag is false.
- **Effective torrent URL.** `torrentUrl()` returns the link when no torrent URL is stored. The
  stored field is left as it is.
- **Read state.** `markAsRead()` sets the read flag and writes `isRead = true` into the field
  bag. It emits the `read` signal only on the transition from unread to read. A second call
  does nothing.
- **JSON form.** `toJsonObject()` is the field bag with the `date` entry replaced by the date
  in RFC 2822 date-time text (section 3.3 of RFC 2822). The JSON constructor runs the field-bag
  constructor on the object, then parses the date text and stores the parsed date both as the
  date and in the field bag.

Files:

- `variant.dfy` (module `Variant`): the field values (`Value`: text, flag, number, date-time)
  and the field bag `Object = map<string, Value>`. It also holds the conversions an article
  applies to a field (`TextAt`, `BoolAt`, `DateAt`) and the date-time type with its order
  `After`, which is `QDateTime`'s `>`.
- `article.dfy` (module `Rss`): the keys; the identity chain `Identity`, defined as
  "first non-empty text among a list of keys"; the value `ArticleState` with the pure
  specifications of the two constructors (`ArticleFromHash`, `ArticleFromJson`), of
  `markAsRead` (`MarkedRead`, `ReadSignals`) and of `toJsonObject` (`Serialize`); the lemmas
  about them; and the class `Article`.
- Inside `Article`, the source's own step-by-step code is imperative. `DeriveGuid` runs the
  `if` chain. `FromHash` throws (returns `Err`) or runs the constructor. `FromJson` delegates
  and then overwrites the date on the new object. `MarkAsRead` updates the object in place.
  Each of these is proved against the pure specification.
- The object invariant `Valid()` says three things:
  - the typed fields and the field bag agree (`Synced`);
  - the read flag is never unset;
  - exactly one `read` signal has been emitted for the one transition to read. The signal is a
    ghost counter `readSignals`.

Other points:

- `toJsonObject()` always writes a `date` entry. So the JSON object's keys are the field bag's
  keys plus `date`, even when the field bag had no `date` entry (a field bag given to the
  field-bag constructor need not have one). `Article.ToJsonObject` states exactly that.
- The JSON round trip (`JsonRoundTrip`) keeps the guid, the read flag, every text field and
  every raw entry except `date`. The date comes back as `parse(format(date))`. An exact round
  trip (`JsonRoundTripExact`) is proved only for articles read from JSON, and only when the
  text format restores their date. No property of the real RFC 2822 formatter is assumed.

## Model

| member | source | states |
|---|---|---|
| `Rss.FirstNonEmpty` | src/base/rss/rss_article.cpp:63-69 | the identity chosen by the fallback chain is never empty |
| `Rss.FirstNonEmptyAt` | src/base/rss/rss_article.cpp:63-67 | when key k is the first with a non-empty text, its text is chosen |
| `Rss.FirstNonEmptyNone` | src/base/rss/rss_article.cpp:68-69 | no identity exactly when every candidate key's text is empty |
| `Rss.Identity` | src/base/rss/rss_article.cpp:53-69 | a derived guid is never empty |
| `Rss.IdentityFallback` | src/base/rss/rss_article.cpp:63-69 | guid is the id if non-empty, else the torrent URL if non-empty, else the title if non-empty, else there is none |
| `Rss.ConstructionFailsIffNoIdentity` | src/base/rss/rss_article.cpp:68-69 | construction fails, with "Bad RSS Article data", iff id, torrent URL and title are all empty or missing; otherwise the guid is non-empty |
| `Rss.GuidFromId` | src/base/rss/rss_article.cpp:53-64 | a non-empty id is the guid |
| `Rss.GuidFromTorrentUrl` | src/base/rss/rss_article.cpp:64-65 | with an empty id, a non-empty torrent URL is the guid |
| `Rss.GuidFromTitle` | src/base/rss/rss_article.cpp:66-67 | with empty id and torrent URL, a non-empty title is the guid |
| `Rss.DataAfterConstruction` | src/base/rss/rss_article.cpp:61-71 | the stored field bag holds the input's keys plus `id`; `id` maps to the guid and every other entry is the input's |
| `Rss.InitialFields` | src/base/rss/rss_article.cpp:54-60 | title, author, description, link, torrent URL and date come from their keys (empty or invalid when missing); read flag is false when missing, else the entry's truth value |
| `Rss.ConstructedIsSynced` | src/base/rss/rss_article.cpp:50-72 | a constructed article's typed fields agree with its field bag |
| `Rss.JsonConstruction` | src/base/rss/rss_article.cpp:74-80 | the JSON constructor fails iff the field-bag constructor does; the date is the parsed JSON date text and is stored in the field bag; all else is the field-bag constructor's |
| `Rss.MarkedReadEffect` | src/base/rss/rss_article.cpp:127-134 | after markAsRead the article is read and `isRead` maps to true; guid, other typed fields and every other entry are unchanged; fields stay in sync |
| `Rss.MarkedReadIdempotent` | src/base/rss/rss_article.cpp:127-134 | a second markAsRead changes nothing and emits no signal |
| `Rss.JsonRoundTrip` | src/base/rss/rss_article.cpp:136-143 | reading back the JSON form keeps guid, read flag, texts and every entry but the date, which becomes parse(format(date)) |
| `Rss.JsonRoundTripExact` | src/base/rss/rss_article.cpp:74-80 | an article read from JSON is reproduced exactly from its own JSON form when the format restores its date |
| `Rss.ArticleFromHash` | src/base/rss/rss_article.cpp:50-72 | fails with "Bad RSS Article data" iff no identity exists; otherwise the guid is the identity, the fields are in sync with the field bag, and the bag's keys are the input's plus `id` |
| `Rss.ArticleFromJson` | src/base/rss/rss_article.cpp:74-80 | fails iff the field-bag constructor fails; otherwise same guid, in sync, date is the parsed JSON date text and the bag's `date` entry holds that date |
| `Rss.Serialize` | src/base/rss/rss_article.cpp:136-143 | keys are the bag's plus `date`; every entry but `date` is kept; `date` is the formatted date |
| `Rss.MarkedRead` | src/base/rss/rss_article.cpp:127-134 | afterwards read; a read state is left as it is; only the read flag and the bag's `isRead` entry may change, and an unread state gets `isRead` set to true |
| `Rss.ReadSignals` | src/base/rss/rss_article.cpp:129-132 | at most one `read` signal per call, and one exactly when the article was unread |
| `Variant.After` | src/base/rss/rss_article.cpp:147 | only a valid date-time different from the other is later; a valid one is later than the invalid one; valid ones compare by instant |
| `Variant.TextAt` | src/base/rss/rss_article.cpp:53-59 | `value(key).toString()`: a text entry's text; a non-empty result means a text entry with that text (simplified coercion, see its line under "## Left out") |
| `Variant.BoolAt` | src/base/rss/rss_article.cpp:60 | `value(key, default).toBool()`: the default for a missing key, else true exactly for a true flag (simplified coercion, see its line under "## Left out") |
| `Variant.DateAt` | src/base/rss/rss_article.cpp:54 | `value(key).toDateTime()`: a date-time entry's value, else invalid (simplified coercion, see its line under "## Left out") |
| `Rss.Article.constructor` | src/base/rss/rss_article.cpp:50-61 | with the derived guid, the new object's state is the field-bag specification's, in sync, with no signal emitted |
| `Rss.Article.DeriveGuid` | src/base/rss/rss_article.cpp:63-69 | the if chain yields the empty string iff there is no identity, else exactly the identity |
| `Rss.Article.FromHash` | src/base/rss/rss_article.cpp:50-72 | fails with "Bad RSS Article data" iff no identity exists; otherwise a fresh valid article whose state is the field-bag specification's |
| `Rss.Article.FromJson` | src/base/rss/rss_article.cpp:74-80 | fails iff the field-bag constructor would; otherwise a fresh valid article whose state is the JSON specification's |
| `Rss.Article.TorrentUrl` | src/base/rss/rss_article.cpp:107-110 | the stored torrent URL when non-empty, the link otherwise; empty only when both are |
| `Rss.Article.MarkAsRead` | src/base/rss/rss_article.cpp:127-134 | afterwards read, with `isRead` true in the field bag, the state is MarkedRead of the old one, and one signal is emitted iff the article was unread; the invariant is kept |
| `Rss.Article.ToJsonObject` | src/base/rss/rss_article.cpp:136-143 | keys are the field bag's plus `date`; every entry but `date` is the stored one; `date` is the formatted date |
| `Rss.Article.ArticleDateRecentThan` | src/base/rss/rss_article.cpp:145-148 | true only for a valid date different from the given one; always true against an invalid date; between valid dates, exactly when strictly later |
| `Variant.AfterIsStrictOrder` | src/base/rss/rss_article.cpp:147 | the date comparison is irreflexive, asymmetric and transitive |
| `Variant.AfterIsTotal` | src/base/rss/rss_article.cpp:147 | of two different date-times one is later than the other |

## Left out

- The `QObject(feed)` parent, the `m_feed` back-pointer and `feed()` (lines 51-52, 150-153): ownership and lifetime only. The model has no feed.
- Signal delivery: `emit read(this)` is counted in the ghost field `readSignals`. Qt's signal and slot dispatch is not modelled.
- Date parsing and formatting (`QDateTime::fromString`, `toString(Qt::RFC2822Date)`): these are library code. They are the function-valued parameters `parse` and `format`, and no property of them is assumed. A date-time is either invalid or an instant. Invalid compares below every valid date-time and equal to itself, as `QDateTime` documents for Qt 5.14 and later; earlier Qt versions leave that comparison unspecified.
- TextAt, BoolAt, DateAt (the QVariant conversions): `toString` gives a text entry's text and the empty string for anything else; `toBool` is true only for a true flag; `toDateTime` gives a date-time entry's value and the invalid date-time otherwise. Qt converts more (numbers to text, `"true"` text to a flag, ISO text to dates); those rules are not modelled.
- JSON conversion (`QJsonObject::fromVariantHash`, `toVariantHash`): a JSON object is the same `Object` type as a variant hash and both conversions are the identity. Qt's turning of non-JSON values into text is not modelled.
- The trivial getters `guid()`, `date()`, `title()`, `author()`, `description()`, `link()`, `isRead()` and `data()` (lines 82-125): they are the class's fields, read directly. `guid` and the text fields are `const`, which also states that nothing changes them after construction.
- A C++ exception in a constructor becomes an `Err` result of the static methods `FromHash` and `FromJson`. The Dafny constructor itself only runs after the guid has been derived.
- Duplicate-guid rejection in a feed and auto-download matching: they live in `rss_feed.cpp` and other files, and rss_feed.cpp is not part of this model.
- Concurrency: the source has none.
