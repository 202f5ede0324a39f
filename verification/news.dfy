/**
 * The news commands: a table from category to an ordered list of feed URLs,
 * read from a configuration file with a built-in fallback, extended by
 * news-add, pruned by news-remove and read by news.
 *
 * Reading the file, decoding it and parsing a feed are outside the model: the
 * outcome of the read-and-decode step and a feed parser come in as inputs.
 */
module News {
  import opened Wrappers

  /** Category name to feed URLs, in the order they are fetched. */
  type Sources = map<string, seq<string>>

  /** The table used when there is no usable configuration file. */
  function DefaultNewsSources(): (d: Sources)
    ensures d.Keys == {"Tech", "World", "Hacker"}
    ensures |d["Tech"]| == 4 && |d["World"]| == 3 && |d["Hacker"]| == 1
    ensures d["Hacker"] == ["https://news.ycombinator.com/rss"]
  {
    map[
    "Tech" := [
      "https://www.theverge.com/rss/index.xml",
      "https://www.wired.com/feed/rss",
      "https://www.techradar.com/rss",
      "https://rss.nytimes.com/services/xml/rss/nyt/Technology.xml"
    ],
    "World" := [
      "http://feeds.bbci.co.uk/news/world/rss.xml",
      "https://rss.nytimes.com/services/xml/rss/nyt/World.xml",
      "https://www.aljazeera.com/xml/rss/all.xml"
    ],
    "Hacker" := ["https://news.ycombinator.com/rss"]
    ]
  }

  /** How reading and decoding the configuration file went. */
  datatype ConfigRead = ReadFailed | DecodeFailed | Decoded(sources: Sources)

  /** The table the commands work on: the decoded file, or the defaults when it cannot be had. */
  function LoadNewsSources(read: ConfigRead): (s: Sources)
    ensures read.Decoded? ==> s == read.sources
    ensures !read.Decoded? ==> s == DefaultNewsSources()
  {
    if read.Decoded? then read.sources else DefaultNewsSources()
  }

  /** A category's feeds; an absent category reads as the empty list. */
  function FeedsOf(sources: Sources, category: string): seq<string> {
    if category in sources then sources[category] else []
  }

  /** The table that news-add saves: `url` appended to `category`, which is created when absent. */
  function AddNewsSource(read: ConfigRead, category: string, url: string): (saved: Sources)
    ensures var loaded := LoadNewsSources(read);
      && saved.Keys == loaded.Keys + {category}
      && saved[category] == FeedsOf(loaded, category) + [url]
      && (forall c :: c in loaded && c != category ==> saved[c] == loaded[c])
  {
    var sources := LoadNewsSources(read);
    sources[category := FeedsOf(sources, category) + [url]]
  }

  /** `feeds` with every occurrence of `url` dropped. */
  function Without(feeds: seq<string>, url: string): seq<string> {
    if feeds == [] then []
    else Without(feeds[..|feeds| - 1], url) + (if feeds[|feeds| - 1] == url then [] else [feeds[|feeds| - 1]])
  }

  /** Filtering distributes over concatenation, so it keeps the order of what remains. */
  lemma {:induction false} WithoutAppend(a: seq<string>, b: seq<string>, url: string)
    ensures Without(a + b, url) == Without(a, url) + Without(b, url)
    decreases |b|
  {
    if b == [] {
      assert a + b == a;
    } else {
      var last := b[|b| - 1];
      assert (a + b)[..|a + b| - 1] == a + b[..|b| - 1];
      WithoutAppend(a, b[..|b| - 1], url);
    }
  }

  /** What remains is exactly the feeds other than `url`, each as often as before. */
  lemma {:induction false} WithoutContents(feeds: seq<string>, url: string)
    ensures url !in Without(feeds, url)
    ensures forall f :: f != url ==> multiset(Without(feeds, url))[f] == multiset(feeds)[f]
    ensures |Without(feeds, url)| == |feeds| - multiset(feeds)[url]
    decreases |feeds|
  {
    if feeds != [] {
      var init := feeds[..|feeds| - 1];
      assert feeds == init + [feeds[|feeds| - 1]];
      WithoutContents(init, url);
    }
  }

  /** Removing a URL right after adding it leaves what removing it alone would. */
  lemma RemoveUndoesAdd(feeds: seq<string>, url: string)
    ensures Without(feeds + [url], url) == Without(feeds, url)
  {
  }

  /** What news-remove does. */
  datatype RemoveOutcome = CategoryNotFound | Removed(saved: Sources)

  /**
   * news-remove: an unknown category is reported and nothing is saved;
   * otherwise the category keeps its key and loses every copy of `url`.
   */
  method RemoveNewsSource(read: ConfigRead, category: string, url: string) returns (r: RemoveOutcome)
    ensures var loaded := LoadNewsSources(read);
      && (r.CategoryNotFound? <==> category !in loaded)
      && (r.Removed? ==>
            && r.saved.Keys == loaded.Keys
            && r.saved[category] == Without(loaded[category], url)
            && (forall c :: c in loaded && c != category ==> r.saved[c] == loaded[c]))
  {
    var sources := LoadNewsSources(read);
    if category !in sources {
      return CategoryNotFound;
    }
    var feeds := sources[category];
    var newFeeds: seq<string> := [];
    for i := 0 to |feeds|
      invariant newFeeds == Without(feeds[..i], url)
    {
      assert feeds[..i + 1][..i] == feeds[..i];
      if feeds[i] != url {
        newFeeds := newFeeds + [feeds[i]];
      }
    }
    assert feeds[..|feeds|] == feeds;
    sources := sources[category := newFeeds];
    r := Removed(sources);
  }

  // Fetching

  datatype Item = Item(title: string, link: string)
  datatype Feed = Feed(title: string, items: seq<Item>)

  /** The lines the news command prints. */
  datatype NewsLine =
    | InvalidCategory(available: set<string>)
    | Fetching(category: string)
    | FetchError(url: string)
    | FeedTitle(title: string)
    | ItemLine(item: Item)
    | Separator

  /** The items shown for a feed: the first `limit` of them, none when `limit` is not positive. */
  function Take(items: seq<Item>, limit: int): (shown: seq<Item>)
    ensures |shown| == if limit <= 0 then 0 else if limit < |items| then limit else |items|
    ensures shown == items[..|shown|]
  {
    if limit <= 0 then [] else if limit < |items| then items[..limit] else items
  }

  function ItemLines(items: seq<Item>): (lines: seq<NewsLine>)
    ensures |lines| == |items|
  {
    seq(|items|, i requires 0 <= i < |items| => ItemLine(items[i]))
  }

  /** What one feed contributes: an error line, or its title, its first items and a rule. */
  function FeedBlock(url: string, parsed: Option<Feed>, limit: int): seq<NewsLine> {
    match parsed
    case None => [FetchError(url)]
    case Some(feed) => [FeedTitle(feed.title)] + ItemLines(Take(feed.items, limit)) + [Separator]
  }

  /** The block printed for each feed URL, given the parser and the limit. */
  function Blocks(parse: string -> Option<Feed>, limit: int): string -> seq<NewsLine> {
    url => FeedBlock(url, parse(url), limit)
  }

  /** The blocks of all feeds, in the order of the list. */
  function FeedsOutput(feeds: seq<string>, block: string -> seq<NewsLine>): seq<NewsLine> {
    if feeds == [] then []
    else FeedsOutput(feeds[..|feeds| - 1], block) + block(feeds[|feeds| - 1])
  }

  /**
   * The news command. An unknown category lists the known ones and fetches
   * nothing; otherwise each feed is parsed in turn and shows at most `limit`
   * items, a feed that fails to parse being reported and skipped.
   */
  method FetchNews(read: ConfigRead, category: string, limit: int, parse: string -> Option<Feed>)
    returns (out: seq<NewsLine>)
    ensures var sources := LoadNewsSources(read);
      if category !in sources then out == [InvalidCategory(sources.Keys)]
      else out == [Fetching(category)] + FeedsOutput(sources[category], Blocks(parse, limit))
  {
    var sources := LoadNewsSources(read);
    if category !in sources {
      return [InvalidCategory(sources.Keys)];
    }
    out := FetchCategory(category, sources[category], limit, parse);
  }

  /** The news command's loop over the feeds of a known category, in their listed order. */
  method FetchCategory(category: string, feeds: seq<string>, limit: int, parse: string -> Option<Feed>)
    returns (out: seq<NewsLine>)
    ensures out == [Fetching(category)] + FeedsOutput(feeds, Blocks(parse, limit))
  {
    out := [Fetching(category)];
    for f := 0 to |feeds|
      invariant out == [Fetching(category)] + FeedsOutput(feeds[..f], Blocks(parse, limit))
    {
      var feedUrl := feeds[f];
      var block := PrintFeed(feedUrl, parse(feedUrl), limit);
      assert feeds[..f + 1][..f] == feeds[..f];
      out := out + block;
    }
    assert feeds[..|feeds|] == feeds;
  }

  /** One feed of the news command: the counting loop that stops at `limit` items. */
  method PrintFeed(feedUrl: string, parsed: Option<Feed>, limit: int) returns (out: seq<NewsLine>)
    ensures out == FeedBlock(feedUrl, parsed, limit)
  {
    if parsed.None? {
      return [FetchError(feedUrl)];
    }
    var feed := parsed.value;
    out := [FeedTitle(feed.title)];
    var count := 0;
    var i := 0;
    while i < |feed.items|
      invariant 0 <= i <= |feed.items| && count == i
      invariant i == 0 || i <= limit
      invariant out == [FeedTitle(feed.title)] + ItemLines(feed.items[..i])
    {
      if count >= limit {
        break;
      }
      assert ItemLines(feed.items[..i + 1]) == ItemLines(feed.items[..i]) + [ItemLine(feed.items[i])];
      out := out + [ItemLine(feed.items[i])];
      count := count + 1;
      i := i + 1;
    }
    assert feed.items[..i] == Take(feed.items, limit);
    out := out + [Separator];
  }

  /** The output of a list of feeds is the outputs of its parts, one after the other. */
  lemma {:induction false} FeedsOutputAppend(a: seq<string>, b: seq<string>, block: string -> seq<NewsLine>)
    ensures FeedsOutput(a + b, block) == FeedsOutput(a, block) + FeedsOutput(b, block)
    decreases |b|
  {
    if b == [] {
      assert a + b == a;
    } else {
      var init, url := b[..|b| - 1], b[|b| - 1];
      assert (a + b)[..|a + b| - 1] == a + init;
      assert (a + b)[|a + b| - 1] == url;
      FeedsOutputAppend(a, init, block);
      calc {
        FeedsOutput(a + b, block);
        FeedsOutput(a + init, block) + block(url);
        FeedsOutput(a, block) + FeedsOutput(init, block) + block(url);
        FeedsOutput(a, block) + (FeedsOutput(init, block) + block(url));
        FeedsOutput(a, block) + FeedsOutput(b, block);
      }
    }
  }

  /** Splitting the list around feed `k` splits the output around that feed's block. */
  lemma {:induction false} FeedsOutputSplit(feeds: seq<string>, block: string -> seq<NewsLine>, k: nat)
    requires k < |feeds|
    ensures FeedsOutput(feeds, block) ==
            FeedsOutput(feeds[..k], block) + block(feeds[k]) + FeedsOutput(feeds[k + 1..], block)
  {
    var pre, mid, post := feeds[..k], [feeds[k]], feeds[k + 1..];
    calc {
      FeedsOutput(feeds, block);
      { assert feeds == (pre + mid) + post; }
      FeedsOutput((pre + mid) + post, block);
      { FeedsOutputAppend(pre + mid, post, block); }
      FeedsOutput(pre + mid, block) + FeedsOutput(post, block);
      { FeedsOutputAppend(pre, mid, block); }
      FeedsOutput(pre, block) + FeedsOutput(mid, block) + FeedsOutput(post, block);
      { assert mid[..0] == []; }
      FeedsOutput(pre, block) + block(feeds[k]) + FeedsOutput(post, block);
    }
  }

  /**
   * Feed `k` gets its own block between those of the feeds before and after
   * it, whether it parsed or not: a failing feed does not stop the others.
   */
  lemma FeedBlockInPlace(feeds: seq<string>, parse: string -> Option<Feed>, limit: int, k: nat)
    requires k < |feeds|
    ensures var block := Blocks(parse, limit);
      FeedsOutput(feeds, block) ==
      FeedsOutput(feeds[..k], block) + FeedBlock(feeds[k], parse(feeds[k]), limit) + FeedsOutput(feeds[k + 1..], block)
  {
    FeedsOutputSplit(feeds, Blocks(parse, limit), k);
  }

  predicate NoItemLines(out: seq<NewsLine>) {
    forall i :: 0 <= i < |out| ==> !out[i].ItemLine?
  }

  /** With a limit of zero or less no item line is printed at all. */
  lemma {:induction false} NoItemsWithoutPositiveLimit(feeds: seq<string>, parse: string -> Option<Feed>, limit: int)
    requires limit <= 0
    ensures NoItemLines(FeedsOutput(feeds, Blocks(parse, limit)))
    decreases |feeds|
  {
    if feeds != [] {
      var block := Blocks(parse, limit);
      var init, url := feeds[..|feeds| - 1], feeds[|feeds| - 1];
      NoItemsWithoutPositiveLimit(init, parse, limit);
      var head: seq<NewsLine>, last: seq<NewsLine> := FeedsOutput(init, block), block(url);
      assert FeedsOutput(feeds, block) == head + last;
      assert NoItemLines(head);
      assert last == FeedBlock(url, parse(url), limit);
      assert last == [FetchError(url)] || last == [FeedTitle(parse(url).value.title), Separator] by {
        if parse(url).Some? {
          assert ItemLines(Take(parse(url).value.items, limit)) == [];
        }
      }
      forall i | 0 <= i < |head + last| ensures !(head + last)[i].ItemLine? {
        if i >= |head| {
          assert (head + last)[i] == last[i - |head|];
          assert !last[i - |head|].ItemLine?;
        } else {
          assert (head + last)[i] == head[i];
        }
      }
    }
  }
}
