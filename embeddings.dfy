/** `get_embedding`: the speaker embedding lookup over the metadata table (converter.py:22-26). */
module Embeddings {
  import opened Wrappers

  /** One row of the metadata table: the speaker id and its embedding vector. */
  datatype MetaEntry = MetaEntry(speaker: string, embedding: seq<real>)

  function NotFoundMessage(speaker: string): string
  {
    "Embedding was not found for speaker " + speaker + "."
  }

  /** Entry `k` is the first whose id is `speaker`. */
  predicate FirstMatchAt(metadata: seq<MetaEntry>, speaker: string, k: int)
  {
    0 <= k < |metadata| && metadata[k].speaker == speaker
    && forall j :: 0 <= j < k ==> metadata[j].speaker != speaker
  }

  /** The embedding of the first entry whose id is `speaker`, with a leading batch axis (`[np.newaxis, :]`). */
  function EmbeddingFor(metadata: seq<MetaEntry>, speaker: string): (r: Result<seq<seq<real>>, string>)
    ensures r.Success? <==> exists k :: 0 <= k < |metadata| && metadata[k].speaker == speaker
    ensures r.Success? ==> exists k :: FirstMatchAt(metadata, speaker, k) && r.value == [metadata[k].embedding]
    ensures r.Failure? ==> r.error == NotFoundMessage(speaker)
  {
    if |metadata| == 0 then Failure(NotFoundMessage(speaker))
    else if metadata[0].speaker == speaker then Success([metadata[0].embedding])
    else
      var r := EmbeddingFor(metadata[1..], speaker);
      assert forall k :: 1 <= k < |metadata| ==> metadata[k] == metadata[1..][k - 1];
      r
  }

  /** The scanning loop with early return of `get_embedding`. */
  method GetEmbedding(metadata: seq<MetaEntry>, speaker: string) returns (r: Result<seq<seq<real>>, string>)
    ensures r == EmbeddingFor(metadata, speaker)
    ensures r.Success? ==> exists k :: FirstMatchAt(metadata, speaker, k) && r.value == [metadata[k].embedding]
    ensures r.Failure? <==> forall k :: 0 <= k < |metadata| ==> metadata[k].speaker != speaker
  {
    var i := 0;
    while i < |metadata|
      invariant 0 <= i <= |metadata|
      invariant forall j :: 0 <= j < i ==> metadata[j].speaker != speaker
      invariant EmbeddingFor(metadata[i..], speaker) == EmbeddingFor(metadata, speaker)
    {
      if metadata[i].speaker == speaker {
        return Success([metadata[i].embedding]);
      }
      assert metadata[i..][1..] == metadata[i + 1..];
      i := i + 1;
    }
    return Failure(NotFoundMessage(speaker));
  }

  /** A later entry with the same id never shadows an earlier one. */
  lemma FirstEntryWins(metadata: seq<MetaEntry>, speaker: string, k: nat)
    requires k < |metadata| && metadata[k].speaker == speaker
    requires forall j :: 0 <= j < k ==> metadata[j].speaker != speaker
    ensures EmbeddingFor(metadata, speaker) == Success([metadata[k].embedding])
  {
  }
}
