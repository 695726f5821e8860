/**
 * The two pure helpers of the Amazon scraper: word-based truncation of the
 * document text before it is embedded, and the image embedding with its
 * fixed-dimension zero-vector fallback.
 */
module AmazonScraper {
  import opened Wrappers
  import opened Strings

  /** Length of every CLIP image embedding the scraper hands on. */
  const EmbeddingDimension: nat := 512

  /** The word budget `truncate_text` uses when none is given. */
  const DefaultMaxLength: int := 50

  const Ellipsis: string := "..."

  /** `[0.0] * n` */
  function Zeros(n: nat): (v: seq<real>)
    ensures |v| == n
    ensures forall i :: 0 <= i < n ==> v[i] == 0.0
  {
    seq(n, _ => 0.0)
  }

  /**
   * `get_image_embedding`. The download, image decoding and CLIP inference
   * are one opaque step, `model`: `None` when any of them raises, otherwise
   * the list of floats `image_features[0].tolist()` produced.
   */
  function ImageEmbedding(imageUrl: string, model: string -> Option<seq<real>>): (v: seq<real>)
    ensures |v| == EmbeddingDimension
    ensures v == Zeros(EmbeddingDimension) || (imageUrl != [] && model(imageUrl) == Some(v))
    ensures imageUrl != [] && model(imageUrl).Some? && |model(imageUrl).value| == EmbeddingDimension
            ==> v == model(imageUrl).value
  {
    if imageUrl == [] then Zeros(EmbeddingDimension)
    else match model(imageUrl)
      case None => Zeros(EmbeddingDimension)
      case Some(embedding) =>
        if |embedding| != EmbeddingDimension then Zeros(EmbeddingDimension) else embedding
  }

  /** An empty URL gives the zero vector whatever the model would have done: the model is not consulted. */
  lemma EmptyUrlSkipsModel(model1: string -> Option<seq<real>>, model2: string -> Option<seq<real>>)
    ensures ImageEmbedding("", model1) == ImageEmbedding("", model2) == Zeros(EmbeddingDimension)
  {
  }

  /** A failed or wrongly sized model output is replaced by the zero vector. */
  lemma FailedEmbeddingIsZero(imageUrl: string, model: string -> Option<seq<real>>)
    requires model(imageUrl).None? || |model(imageUrl).value| != EmbeddingDimension
    ensures ImageEmbedding(imageUrl, model) == Zeros(EmbeddingDimension)
  {
  }

  /**
   * `truncate_text`: more than `maxLength` whitespace-separated words are cut
   * to the first `maxLength` of them (Python slice semantics, so a negative
   * `maxLength` drops words from the end), joined by single spaces, with
   * "..." appended; otherwise the text comes back exactly as given.
   */
  function TruncateText(text: string, maxLength: int := DefaultMaxLength): (r: string)
    ensures |Words(text)| <= maxLength ==> r == text
    ensures |Words(text)| > maxLength ==> |r| >= |Ellipsis| && r[|r| - |Ellipsis|..] == Ellipsis
  {
    var words := Words(text);
    if |words| > maxLength then JoinWords(SlicePrefix(words, maxLength)) + Ellipsis else text
  }

  /**
   * Above the budget, the text before the trailing "..." is the kept words
   * joined by single spaces, and splitting it again gives exactly those
   * words: the first `maxLength` words of the input when `maxLength >= 0`.
   */
  lemma TruncatedBody(text: string, maxLength: int)
    requires |Words(text)| > maxLength
    ensures var r := TruncateText(text, maxLength);
            var body := r[..|r| - |Ellipsis|];
            var kept := SlicePrefix(Words(text), maxLength);
            body == JoinWords(kept) && Words(body) == kept
    ensures maxLength >= 0 ==>
            var r := TruncateText(text, maxLength);
            Words(r[..|r| - |Ellipsis|]) == Words(text)[..maxLength]
  {
    var words := Words(text);
    var kept := SlicePrefix(words, maxLength);
    var r := TruncateText(text, maxLength);
    assert r[..|r| - |Ellipsis|] == JoinWords(kept);
    WordsAreWords(text);
    assert AllWords(kept) by {
      forall i | 0 <= i < |kept| ensures IsWord(kept[i]) { assert kept[i] == words[i]; }
    }
    WordsOfJoin(kept);
  }

  /**
   * With a budget of at least one word, the truncated text splits into the
   * kept words, the last one carrying the "...".
   */
  lemma TruncatedWords(text: string, maxLength: int)
    requires 1 <= maxLength < |Words(text)|
    ensures var words := Words(text);
            Words(TruncateText(text, maxLength))
              == words[..maxLength - 1] + [words[maxLength - 1] + Ellipsis]
  {
    var words := Words(text);
    var kept := words[..maxLength];
    WordsAreWords(text);
    assert AllWords(kept) by {
      forall i | 0 <= i < |kept| ensures IsWord(kept[i]) { assert kept[i] == words[i]; }
    }
    assert forall i :: 0 <= i < |Ellipsis| ==> !IsSpace(Ellipsis[i]);
    WordsOfJoinWithTail(kept, Ellipsis);
    assert kept[..maxLength - 1] == words[..maxLength - 1];
  }

  /** With a budget of at least one word, the result never has more words than the budget. */
  lemma TruncateWordBound(text: string, maxLength: int)
    requires maxLength >= 1
    ensures |Words(TruncateText(text, maxLength))| <= maxLength
  {
    if |Words(text)| > maxLength {
      TruncatedWords(text, maxLength);
    }
  }

  /** `"...".split()` is the single word "...". */
  lemma WordsOfEllipsis()
    ensures Words(Ellipsis) == [Ellipsis]
  {
    assert IsWord(Ellipsis);
    WordsCons(Ellipsis, "");
    assert Ellipsis + "" == Ellipsis;
  }

  /** A budget of zero turns any text that has a word into "...", a single word. */
  lemma TruncateZeroBudget(text: string)
    ensures |Words(text)| > 0 ==> TruncateText(text, 0) == Ellipsis && Words(TruncateText(text, 0)) == [Ellipsis]
  {
    WordsOfEllipsis();
  }

  /** Truncating an already truncated text with the same non-negative budget changes nothing. */
  lemma TruncateIdempotent(text: string, maxLength: int)
    requires maxLength >= 0
    ensures TruncateText(TruncateText(text, maxLength), maxLength) == TruncateText(text, maxLength)
  {
    var r := TruncateText(text, maxLength);
    if |Words(text)| > maxLength {
      if maxLength == 0 {
        assert r == Ellipsis;
        WordsOfEllipsis();
      } else {
        TruncatedWords(text, maxLength);
      }
    }
  }
}
