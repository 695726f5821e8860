/**
 * The Apple scraper's own logic: the mock catalogue generator, the file
 * extension `download_image` takes from an image URL, and the document text
 * `insert_to_vector_db` posts for a product.
 */
module AppleProductScraper {
  import opened Strings

  /** One product record. `id` and `scrapedAt` come from `uuid.uuid4()` and `datetime.now()`. */
  datatype Product = Product(
    id: string,
    title: string,
    description: string,
    price: string,
    imageUrl: string,
    imagePath: string,
    category: string,
    scrapedAt: string)

  const Categories: seq<string> := ["iPhone", "iPad", "Mac", "Watch", "AirPods"]

  /** Number of mock products generated, for indices 1 to 100. */
  const ProductCount: nat := 100

  const BasePrice: nat := 799
  const PriceStep: nat := 10
  const ImageBaseUrl: string := "https://example.com/images/"

  function Category(i: nat): (category: string)
    ensures category in Categories
  {
    Categories[i % |Categories|]
  }

  function Title(category: string, i: nat): (title: string)
    ensures "Apple " <= title
    ensures |title| == 7 + |category| + |NatToString(i)|
  {
    "Apple " + category + " " + NatToString(i)
  }

  function Description(category: string): (description: string)
    ensures "Latest generation " <= description
    ensures |description| == |"Latest generation "| + |category| + |" with advanced features"|
  {
    "Latest generation " + category + " with advanced features"
  }

  function Price(i: nat): (price: string)
    ensures |price| >= 5 && price[0] == '$' && price[|price| - 3..] == ".00"
  {
    "$" + NatToString(BasePrice + i * PriceStep) + ".00"
  }

  function ImageUrl(category: string, i: nat): (url: string)
    ensures ImageBaseUrl <= url
    ensures |url| == |ImageBaseUrl| + |category| + 1 + |NatToString(i)| + 4
  {
    ImageBaseUrl + ToLower(category) + "_" + NatToString(i) + ".jpg"
  }

  /** The record the generator appends for index `i`. */
  function MockProduct(i: nat, id: string, scrapedAt: string): (p: Product)
    ensures p.id == id && p.scrapedAt == scrapedAt && p.imagePath == ""
    ensures p.category in Categories
  {
    var category := Category(i);
    Product(id, Title(category, i), Description(category), Price(i),
            ImageUrl(category, i), "", category, scrapedAt)
  }

  /** `[f(1), ..., f(n)]` */
  function Tabulate<T>(n: nat, f: nat -> T): (s: seq<T>)
    ensures |s| == n
  {
    if n == 0 then [] else Tabulate(n - 1, f) + [f(n)]
  }

  /** Position k of `Tabulate(n, f)` holds `f(k + 1)`. */
  lemma {:induction false} TabulateAt<T>(n: nat, f: nat -> T, k: nat)
    requires k < n
    ensures Tabulate(n, f)[k] == f(k + 1)
  {
    if k < n - 1 {
      TabulateAt(n - 1, f, k);
    }
  }

  /** The records for indices 1 to `n`, in order. */
  function MockCatalogue(n: nat, uuid4: nat -> string, now: nat -> string): (products: seq<Product>)
    ensures |products| == n
  {
    Tabulate(n, i => MockProduct(i, uuid4(i), now(i)))
  }

  /** Position k of the catalogue holds the record for index k + 1. */
  lemma MockCatalogueAt(n: nat, uuid4: nat -> string, now: nat -> string, k: nat)
    requires k < n
    ensures |MockCatalogue(n, uuid4, now)| == n
    ensures MockCatalogue(n, uuid4, now)[k] == MockProduct(k + 1, uuid4(k + 1), now(k + 1))
  {
    TabulateAt(n, i => MockProduct(i, uuid4(i), now(i)), k);
  }

  /**
   * `generate_mock_apple_products`. `uuid4(i)` and `now(i)` stand for what
   * `uuid.uuid4()` and `datetime.now().isoformat()` return in iteration `i`.
   */
  method GenerateMockAppleProducts(uuid4: nat -> string, now: nat -> string) returns (products: seq<Product>)
    ensures |products| == ProductCount
    ensures products == MockCatalogue(ProductCount, uuid4, now)
  {
    products := [];
    for i := 1 to ProductCount + 1
      invariant products == MockCatalogue(i - 1, uuid4, now)
    {
      var category := Categories[i % |Categories|];
      var productId := uuid4(i);
      products := products + [Product(
        productId, Title(category, i), Description(category), Price(i),
        ImageUrl(category, i), "", category, now(i))];
    }
  }

  /** Categories repeat with period five, starting at "iPad" for index 1. */
  lemma CategoryCycle(i: nat)
    ensures Category(i + |Categories|) == Category(i)
    ensures Category(1) == "iPad"
  {
  }

  lemma CategoryIsWord(i: nat)
    ensures IsWord(Category(i))
    ensures '.' !in Category(i)
  {
    assert IsWord("iPhone") && IsWord("iPad") && IsWord("Mac") && IsWord("Watch") && IsWord("AirPods");
    assert Category(i) in Categories;
  }

  /** The title splits into "Apple", the category and the index. */
  lemma TitleWords(i: nat)
    ensures Words(Title(Category(i), i)) == ["Apple", Category(i), NatToString(i)]
  {
    var c := Category(i);
    var n := NatToString(i);
    CategoryIsWord(i);
    NatToStringIsWord(i);
    assert IsWord("Apple");
    var t := ["Apple", c, n];
    assert AllWords(t);
    assert JoinWords([c, n]) == c + " " + n by {
      assert [c, n][1..] == [n];
    }
    assert JoinWords(t) == "Apple" + " " + JoinWords([c, n]) by {
      assert t[1..] == [c, n];
    }
    assert JoinWords(t) == Title(c, i);
    WordsOfJoin(t);
  }

  /** The description is its six words joined by single spaces. */
  lemma DescriptionIsJoin(c: string)
    ensures JoinWords(["Latest", "generation", c, "with", "advanced", "features"]) == Description(c)
  {
    var d := ["Latest", "generation", c, "with", "advanced", "features"];
    var tail := ["with", "advanced", "features"];
    var x := JoinWords(tail);
    assert x == "with advanced features" by {
      assert tail[1..] == ["advanced", "features"];
      assert tail[1..][1..] == ["features"];
    }
    assert d[2..][1..] == tail;
    assert d[1..][1..] == d[2..];
    var lead := "Latest" + " " + "generation" + " ";
    assert lead == "Latest generation ";
    assert JoinWords(d[2..]) == c + " " + x;
    assert JoinWords(d[1..]) == "generation" + " " + JoinWords(d[2..]);
    calc {
      JoinWords(d);
      "Latest" + " " + JoinWords(d[1..]);
      "Latest" + " " + ("generation" + " " + (c + " " + x));
      lead + c + (" " + x);
      { assert " " + x == " with advanced features"; }
      Description(c);
    }
  }

  /** A description splits into six words, the third of which is the category. */
  lemma DescriptionWords(c: string)
    requires IsWord(c)
    ensures Words(Description(c)) == ["Latest", "generation", c, "with", "advanced", "features"]
  {
    var d := ["Latest", "generation", c, "with", "advanced", "features"];
    assert IsWord("Latest") && IsWord("generation") && IsWord("with");
    assert IsWord("advanced") && IsWord("features");
    assert AllWords(d);
    DescriptionIsJoin(c);
    WordsOfJoin(d);
  }

  /** No two mock products share a title. */
  lemma TitlesDistinct(i: nat, j: nat)
    requires i != j
    ensures Title(Category(i), i) != Title(Category(j), j)
  {
    TitleWords(i);
    TitleWords(j);
    if Title(Category(i), i) == Title(Category(j), j) {
      NatToStringInjective(i, j);
    }
  }

  /** `"$<digits>.00"`: the amount a price string states, when it has that shape. */
  predicate PriceOf(price: string, amount: nat)
  {
    |price| >= 4 && price[0] == '$' && price[|price| - 3..] == ".00"
    && (forall k :: 1 <= k < |price| - 3 ==> IsDigit(price[k]))
    && DigitsValue(price[1..|price| - 3]) == amount
  }

  /** Product i is priced at 799 + 10 i dollars. */
  lemma PriceAmount(i: nat)
    ensures PriceOf(Price(i), BasePrice + i * PriceStep)
  {
    var digits := NatToString(BasePrice + i * PriceStep);
    var p := Price(i);
    assert p[1..|p| - 3] == digits;
    assert forall k :: 1 <= k < |p| - 3 ==> p[k] == digits[k - 1];
    NatToStringRoundTrip(BasePrice + i * PriceStep);
  }

  /** A price string states one amount at most. */
  lemma PriceOfUnique(price: string, a: nat, b: nat)
    requires PriceOf(price, a) && PriceOf(price, b)
    ensures a == b
  {
  }

  /** Prices strictly increase with the index, from $809.00 for product 1 to $1799.00 for product 100. */
  lemma PricesIncrease(i: nat, j: nat)
    requires 1 <= i < j <= ProductCount
    ensures forall a, b :: PriceOf(Price(i), a) && PriceOf(Price(j), b) ==> a < b
    ensures Price(1) == "$809.00" && Price(ProductCount) == "$1799.00"
  {
    PriceAmount(i);
    PriceAmount(j);
    forall a, b | PriceOf(Price(i), a) && PriceOf(Price(j), b) ensures a < b {
      PriceOfUnique(Price(i), a, BasePrice + i * PriceStep);
      PriceOfUnique(Price(j), b, BasePrice + j * PriceStep);
    }
    assert NatToString(809) == "809";
    assert NatToString(1799) == "1799";
  }

  /** Product i's title and description both name its category, and its image path is empty. */
  lemma MockProductNamesCategory(i: nat, id: string, scrapedAt: string)
    ensures var p := MockProduct(i, id, scrapedAt);
            p.category == Category(i)
            && Words(p.title) == ["Apple", p.category, NatToString(i)]
            && Words(p.description) == ["Latest", "generation", p.category, "with", "advanced", "features"]
            && p.imagePath == ""
  {
    TitleWords(i);
    CategoryIsWord(i);
    DescriptionWords(Category(i));
  }

  /**
   * `url.split('.')[-1].split('?')[0]`: the text after the last '.', cut at
   * its first '?'.
   */
  function Extension(url: string): (ext: string)
    ensures '.' !in ext && '?' !in ext
  {
    var pieces := SplitOn(url, '.');
    var last := pieces[|pieces| - 1];
    SplitOnFirst(last, '?');
    SplitOn(last, '?')[0]
  }

  /** `ext` sits in `url` at `start`, right after the last '.' (or at the start) and before a '?' (or the end). */
  predicate ExtensionAt(url: string, start: nat, ext: string)
  {
    start + |ext| <= |url|
    && (start == 0 || url[start - 1] == '.')
    && '.' !in url[start..]
    && url[start..start + |ext|] == ext
    && (start + |ext| == |url| || url[start + |ext|] == '?')
  }

  /** The extension is the piece of the URL after its last '.', up to the first '?' in that piece. */
  lemma ExtensionLocated(url: string)
    ensures exists start: nat :: ExtensionAt(url, start, Extension(url))
  {
    var pieces := SplitOn(url, '.');
    var last := pieces[|pieces| - 1];
    SplitOnLast(url, '.');
    SplitOnFirst(last, '?');
    var start := |url| - |last|;
    assert url[start..] == last;
    var ext := Extension(url);
    assert url[start..start + |ext|] == ext;
    assert ExtensionAt(url, start, ext);
  }

  /** A URL ending in "." and a piece free of '.' and '?' has that piece as its extension. */
  lemma ExtensionOfSuffix(prefix: string, ext: string)
    requires '.' !in ext && '?' !in ext
    ensures Extension(prefix + "." + ext) == ext
  {
    SplitOnSuffix(prefix, '.', ext);
    assert prefix + "." + ext == prefix + ['.'] + ext;
  }

  /** Every mock image URL has the extension "jpg". */
  lemma MockImageExtension(i: nat)
    ensures Extension(ImageUrl(Category(i), i)) == "jpg"
  {
    var prefix := ImageBaseUrl + ToLower(Category(i)) + "_" + NatToString(i);
    assert ImageUrl(Category(i), i) == prefix + ".jpg";
    assert prefix + ".jpg" == prefix + "." + "jpg";
    ExtensionOfSuffix(prefix, "jpg");
  }

  /** The text `insert_to_vector_db` posts for a product. */
  function DocumentText(p: Product): (text: string)
    ensures |text| == |p.title| + 2 + |p.description|
    ensures text[..|p.title|] == p.title && text[|p.title|..|p.title| + 2] == ". "
    ensures text[|p.title| + 2..] == p.description
  {
    p.title + ". " + p.description
  }

  /** When the title has no '.', the document text gives back the title and the description. */
  lemma DocumentTextRecoversParts(p: Product)
    requires '.' !in p.title
    ensures SplitOn(DocumentText(p), '.')[0] == p.title
    ensures DocumentText(p)[|p.title| + 2..] == p.description
  {
    assert DocumentText(p) == p.title + ['.'] + (" " + p.description);
    SplitOnPrefix(p.title, '.', " " + p.description);
  }

  /** A title has no '.' when its category has none: the rest is letters, spaces and digits. */
  lemma TitleHasNoDot(category: string, i: nat)
    requires '.' !in category
    ensures '.' !in Title(category, i)
  {
    var n := NatToString(i);
    assert '.' !in n by {
      forall k | 0 <= k < |n| ensures n[k] != '.' { assert IsDigit(n[k]); }
    }
    assert Title(category, i) == "Apple " + category + " " + n;
  }

  /** Every mock product's document text starts with its title, up to the first '.'. */
  lemma MockDocumentText(i: nat, id: string, scrapedAt: string)
    ensures var p := MockProduct(i, id, scrapedAt);
            SplitOn(DocumentText(p), '.')[0] == p.title
  {
    var p := MockProduct(i, id, scrapedAt);
    CategoryIsWord(i);
    TitleHasNoDot(Category(i), i);
    DocumentTextRecoversParts(p);
  }
}
