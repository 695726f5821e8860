# Product scrapers and Qdrant vector store — a Dafny model

This project models the part of the product-search demo that computes
something itself, as opposed to calling a web site, a model or a database:

- **Amazon scraper** (`amazon_scraper.py`): `truncate_text`, which cuts a
  document text to its first `max_length` whitespace-separated words and
  appends `"..."`, and `get_image_embedding`, which always yields a
  512-element vector — the CLIP output when it has exactly that length,
  otherwise zeros.
- **Apple scraper** (`apple_product_scraper.py`): the mock catalogue
  generator (100 products, category, title, price and image URL computed
  from the index), the file extension `download_image` takes from a URL,
  and the document text `insert_to_vector_db` posts.
- **Qdrant store** (`vector_db_qdrant.py`): creating the collection only
  when the client has none of that name, turning a batch of documents into
  points, shaping search hits into `{text, metadata, score, id}`, the
  health check, and the wrapping of every failure raised inside the `try`
  blocks of `__init__`, `search` and `insert` as `VectorDBError`.

Files: `wrappers.dfy` (Option/Result/Outcome), `strings.dfy` (the Python
string operations the scrapers use: `str.split()`, `' '.join`, `str(n)`,
`str.lower()`, `str.split(sep)`, list slicing), `amazon_scraper.dfy`,
`apple_product_scraper.dfy`, `vector_db_qdrant.dfy`.

External calls are parameters. The download plus CLIP step is one function
`string -> Option<seq<real>>` (`None` when it raises). `uuid.uuid4()` and
`datetime.now()` are functions of the loop index. The Qdrant client's
collection set is the state of a `Client` object. Its `get_collections` and
`create_collection` calls take the error they raise, if any, as a parameter.
Its `search`, `upsert` and `count` answers are functions of the arguments
the wrapper passes. Python dicts are `map<string, Value>` over a JSON-like
`Value` with Python truthiness, so `x or {}` and `d.get(k, default)` are
modelled as the code writes them.

The vector store has no connection retry, no vector-length check on insert
or search, no `reset`, no choice between text and image search, no dimension
check against an existing collection and no ranking of its own (ordering and
the `top_k` cut are the client's), and neither does the model. The
collection is created with cosine distance and the given size, and an
existing one is reused whatever its size. Points whose document has no
truthy `id` are numbered by their position in the batch. That number can
equal another document's explicit id (`ExplicitIdCanCollideWithPosition`),
and the model states this as the code's behaviour.

## Model

| member | source | states |
|---|---|---|
| `Strings.Words` | amazon_scraper.py:48 | `text.split()`: the maximal runs of non-whitespace characters, in order; there are no more words than characters, and none at all exactly when the text is whitespace only |
| `Strings.JoinWords` | amazon_scraper.py:50 | `' '.join(ws)`: the elements joined by single spaces, `""` for no elements; `WordsOfJoin` proves splitting gives the elements back |
| `Strings.WordsAreWords` | amazon_scraper.py:48 | every element of `text.split()` is non-empty and free of whitespace |
| `Strings.WordsOfJoin` | amazon_scraper.py:48-50 | splitting `' '.join(ws)` on whitespace gives back `ws` when its elements are words |
| `Strings.WordsOfJoinWithTail` | amazon_scraper.py:50 | splitting `' '.join(ws) + tail` gives `ws` with `tail` glued to its last word |
| `Strings.SlicePrefix` | amazon_scraper.py:50 | `words[:k]` is a prefix of `words` of length `k`, all of it when `k` is larger, and drops `-k` words from the end when `k` is negative |
| `Strings.NatToString` | apple_product_scraper.py:55-58 | the `{i}` and `{799 + (i * 10)}` fields: at least one character, every one a decimal digit |
| `Strings.NatToStringRoundTrip` | apple_product_scraper.py:55-58 | the decimal text of `n` reads back as `n` |
| `Strings.NatToStringInjective` | apple_product_scraper.py:55-58 | distinct indices render as distinct decimal texts |
| `Strings.ToLower` | apple_product_scraper.py:58 | `category.lower()`: same length, each ASCII capital replaced by its lower-case letter, every other character kept |
| `Strings.SplitOn` | apple_product_scraper.py:34 | `s.split(c)` has at least one piece, no piece contains `c`, and it is `[s]` exactly when `c` does not occur |
| `Strings.JoinSplitRoundTrip` | apple_product_scraper.py:34 | joining the pieces of `s.split(c)` with `c` gives `s` back |
| `Strings.SplitOnFirst` | apple_product_scraper.py:34 | the first piece of `s.split(c)` is the prefix of `s` before its first `c` |
| `Strings.SplitOnLast` | apple_product_scraper.py:34 | the last piece of `s.split(c)` is the suffix of `s` after its last `c` |
| `AmazonScraper.Zeros` | amazon_scraper.py:44 | `[0.0] * 512` (also line 28): `n` elements, each `0.0` |
| `AmazonScraper.ImageEmbedding` | amazon_scraper.py:25-44 | the result always has 512 elements; it is the zero vector or the model's own output for a non-empty URL; the model output is returned whenever it has exactly 512 elements |
| `AmazonScraper.EmptyUrlSkipsModel` | amazon_scraper.py:27-28 | an empty URL yields 512 zeros whatever the model would answer, so the model is not consulted |
| `AmazonScraper.FailedEmbeddingIsZero` | amazon_scraper.py:38-44 | a failing model or an output of the wrong length yields the 512-element zero vector |
| `AmazonScraper.TruncateText` | amazon_scraper.py:46-51 | a text with at most `max_length` (default 50) words comes back exactly as given, spacing included; a longer one ends in `"..."` |
| `AmazonScraper.TruncatedBody` | amazon_scraper.py:48-50 | above the budget, the text before `"..."` is the kept words joined by single spaces and splits back into exactly the first `max_length` words of the input |
| `AmazonScraper.TruncatedWords` | amazon_scraper.py:48-50 | for a budget of at least one word, the truncated text splits into the first `max_length` input words, the last carrying `"..."` |
| `AmazonScraper.TruncateWordBound` | amazon_scraper.py:48-51 | for `max_length >= 1` the result never has more than `max_length` words |
| `AmazonScraper.WordsOfEllipsis` | amazon_scraper.py:50 | the marker `"..."` that truncation appends is one word of its own when split |
| `AmazonScraper.TruncateZeroBudget` | amazon_scraper.py:46-51 | a budget of zero turns any text with at least one word into exactly `"..."`, which splits into that single word |
| `AmazonScraper.TruncateIdempotent` | amazon_scraper.py:46-51 | for `max_length >= 0`, truncating an already truncated text with the same budget returns it unchanged |
| `AppleProductScraper.Category` | apple_product_scraper.py:50 | `categories[i % len(categories)]`: always one of the five category names |
| `AppleProductScraper.Title` | apple_product_scraper.py:55 | `f"Apple {category} {i}"`: starts with `"Apple "`, and its length is that of `"Apple "`, the category, one space and the decimal index |
| `AppleProductScraper.Description` | apple_product_scraper.py:56 | `f"Latest generation {category} with advanced features"`: starts with `"Latest generation "`, its length is that of its parts |
| `AppleProductScraper.Price` | apple_product_scraper.py:57 | `f"${799 + (i * 10)}.00"`: starts with `$` and ends with `.00` |
| `AppleProductScraper.ImageUrl` | apple_product_scraper.py:58 | `f"https://example.com/images/{category.lower()}_{i}.jpg"`: starts with the image base URL, its length is that of its parts |
| `AppleProductScraper.MockProduct` | apple_product_scraper.py:53-62 | the record appended for index `i`: the given `uuid4` id and timestamp, an empty `image_path`, and a category among the five |
| `AppleProductScraper.MockCatalogue` | apple_product_scraper.py:49-64 | the records for indices 1 to `n` in order; it has exactly `n` of them |
| `AppleProductScraper.GenerateMockAppleProducts` | apple_product_scraper.py:44-64 | returns exactly 100 products: the records for indices 1 to 100, in order |
| `AppleProductScraper.MockCatalogueAt` | apple_product_scraper.py:49-62 | position k of the catalogue holds the record for index k+1, with that iteration's uuid and timestamp |
| `AppleProductScraper.CategoryCycle` | apple_product_scraper.py:47-50 | categories repeat with period five and product 1 is an iPad |
| `AppleProductScraper.CategoryIsWord` | apple_product_scraper.py:47 | every category name is a single word without a `.` |
| `AppleProductScraper.TitleWords` | apple_product_scraper.py:55 | the title splits into `Apple`, the category and the index |
| `AppleProductScraper.TitlesDistinct` | apple_product_scraper.py:55 | no two indices give the same title |
| `AppleProductScraper.DescriptionIsJoin` | apple_product_scraper.py:56 | the description is six words joined by single spaces |
| `AppleProductScraper.DescriptionWords` | apple_product_scraper.py:56 | the description splits into six words, the third being the category |
| `AppleProductScraper.MockProductNamesCategory` | apple_product_scraper.py:55-60 | product i's `category` field is its category, its title and description name it, and its `image_path` is empty |
| `AppleProductScraper.PriceAmount` | apple_product_scraper.py:57 | product i's price has the shape `$<digits>.00` and the digits denote 799 + 10·i |
| `AppleProductScraper.PriceOfUnique` | apple_product_scraper.py:57 | a price string states one amount at most |
| `AppleProductScraper.PricesIncrease` | apple_product_scraper.py:57 | prices strictly increase with the index, from `$809.00` to `$1799.00` |
| `AppleProductScraper.Extension` | apple_product_scraper.py:34 | the extension contains neither `.` nor `?` |
| `AppleProductScraper.ExtensionLocated` | apple_product_scraper.py:34 | the extension sits in the URL right after its last `.` (or at its start) and ends at a `?` or at the URL's end |
| `AppleProductScraper.ExtensionOfSuffix` | apple_product_scraper.py:34 | a URL ending in `.` and a piece free of `.` and `?` has that piece as its extension |
| `AppleProductScraper.MockImageExtension` | apple_product_scraper.py:58 | every mock image URL has the extension `jpg` |
| `AppleProductScraper.DocumentText` | apple_product_scraper.py:80 | `f"{product['title']}. {product['description']}"`: the title, then `". "`, then the description, each at its stated position |
| `AppleProductScraper.DocumentTextRecoversParts` | apple_product_scraper.py:80 | when the title has no `.`, the posted text `title + ". " + description` gives back the title (before its first `.`) and the description |
| `AppleProductScraper.TitleHasNoDot` | apple_product_scraper.py:55 | a title has no `.` when its category has none |
| `AppleProductScraper.MockDocumentText` | apple_product_scraper.py:80 | every mock product's posted text starts with its title, up to the first `.` |
| `VectorDBQdrant.Client.InMemory` | vector_db_qdrant.py:15 | a fresh in-memory client holds no collections |
| `VectorDBQdrant.Client.GetCollections` | vector_db_qdrant.py:21-22 | the listing is the client's collection names, or the error it raised |
| `VectorDBQdrant.Client.CreateCollection` | vector_db_qdrant.py:23-29 | on success the named collection is added with the given parameters and nothing else changes; on failure nothing changes |
| `VectorDBQdrant.QdrantVectorDB.constructor` | vector_db_qdrant.py:15-17 | the store keeps the client, the collection name and the vector size |
| `VectorDBQdrant.QdrantVectorDB.Open` | vector_db_qdrant.py:14-35 | the collection is created (cosine, given size) only when absent; an existing one is reused and the collection map is unchanged; either client failure surfaces as `VectorDBError("Qdrant initialization failed: …")` and changes nothing |
| `VectorDBQdrant.QdrantVectorDB.OpenInMemory` | vector_db_qdrant.py:14-35 | with the store's own fresh in-memory client, a successful start keeps the given collection name and vector size and always creates that collection, which is then the only one; a failing listing or creation is `VectorDBError("Qdrant initialization failed: …")`; name, size and faults default to `document_search`, 512 and none |
| `VectorDBQdrant.MissingKey` | vector_db_qdrant.py:62-64 | a document raises `KeyError` exactly when it lacks `vector` or `text` |
| `VectorDBQdrant.PointId` | vector_db_qdrant.py:61 | `doc.get("id") or idx`: the document's id when present and truthy, otherwise the batch index |
| `VectorDBQdrant.ToPoint` | vector_db_qdrant.py:60-67 | the point's id is the document's id when truthy, else its batch index; the vector is passed unchanged; the payload holds exactly `text` and `metadata`, the latter defaulting to `{}` when absent |
| `VectorDBQdrant.BuildPoints` | vector_db_qdrant.py:59-69 | one point per document, in input order, numbered from the batch start, or the `KeyError` text of the first incomplete document |
| `VectorDBQdrant.PositionalIdsDistinct` | vector_db_qdrant.py:61 | without truthy document ids, the point ids of a batch are pairwise distinct |
| `VectorDBQdrant.ExplicitIdCanCollideWithPosition` | vector_db_qdrant.py:61 | an explicit id 1 and a missing id at position 1 give two points with the same id |
| `VectorDBQdrant.FalsyIdReplaced` | vector_db_qdrant.py:61 | any falsy id (`0`, `0.0`, `False`, `""`, `None`, an empty list or dict) is replaced by the position, exactly as if the key were absent |
| `VectorDBQdrant.ShapeHit` | vector_db_qdrant.py:46-51 | text, score and id are copied from the hit; metadata is the payload's when truthy, otherwise `{}`, and is never `None` |
| `VectorDBQdrant.ShapeHits` | vector_db_qdrant.py:46-51 | one result per hit in the client's order, or the `AttributeError` text when a hit has no payload |
| `VectorDBQdrant.QdrantVectorDB.Search` | vector_db_qdrant.py:37-54 | succeeds exactly when the client answers and every hit has a payload; the query and `top_k` (default 5) reach the client unchanged and the hits come back shaped one for one; a client error or a hit without payload is `VectorDBError("Search operation failed: …")` with that cause, and every failure has that form |
| `VectorDBQdrant.QdrantVectorDB.Insert` | vector_db_qdrant.py:56-78 | succeeds exactly when every document has `vector` and `text` and the upsert of the built points succeeds; a missing key gives the first `KeyError`'s text and a failing upsert gives the client's error, each as `VectorDBError("Insert operation failed: …")` |
| `VectorDBQdrant.QdrantVectorDB.HealthCheck` | vector_db_qdrant.py:80-99 | never fails; `healthy` with the name, `exists = True` and the count exactly when counting succeeds, otherwise `unhealthy` with the error text |

## Left out

- `scrape_amazon_products`, `scrape_apple_products`, `save_products`, `setup_directories` and the HTTP posts of both `insert_to_vector_db` functions: HTML parsing, HTTP, JSON files and directories are I/O. Only the posted document text of the Apple scraper is modelled.
- `download_image`: the request, the streaming write and the local path are I/O; only the extension expression is modelled.
- The text embedding and dimension warning in the Amazon `insert_to_vector_db`: CLIP inference is foreign floating-point code.
- `get_image_embedding`: the float values of the embedding are not modelled, only its length and the zero fill. The 10-second timeout is part of the opaque model step.
- Logging and `print` calls, which change no result.
- `vector_db.py`, `main.py` and `config.py`: pymilvus and FastAPI calls and configuration reads, with no logic of their own beyond what the Qdrant store shows.
- Similarity ranking, the cosine metric, upsert overwrite and point counting happen inside Qdrant. Hits, upsert outcomes and counts are opaque inputs.
- `VectorDBQdrant.BuildPoints`: pydantic's validation of `PointStruct` fields (id kind, vector element type) is not modelled. A validation error is folded into the upsert failure, so a batch that fails both ways reports the `KeyError`.
- `Strings.ToLower`: only ASCII letters are lowered; it is applied only to the five fixed category names.
- `VectorDBQdrant.QdrantVectorDB.Open`: the fresh in-memory client that `__init__` builds is a parameter here; `OpenInMemory` builds it itself.
- `VectorDBQdrant.QdrantVectorDB.OpenInMemory`: building the client (`QdrantClient(":memory:")`, vector_db_qdrant.py:15) lies outside the `try` and is assumed to succeed; a failure there would escape unwrapped, and the model has no such path.
