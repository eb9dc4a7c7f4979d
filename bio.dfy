/** The bio history tracker: an append-only log of the profile's bio text,
    with one record per observed change. */
module Bio {
  import opened Models

  /** No two neighbouring records carry the same text. */
  predicate NoRepeats(h: seq<BioRecord>)
  {
    forall i :: 0 < i < |h| ==> h[i - 1].description != h[i].description
  }

  /** The history file after one check that observed `description` at
      `now`: a missing file starts the log with one record; a stored log
      gains one record when the text differs from its last record; an empty
      stored log is left as it is. */
  function BioStep(file: Option<seq<BioRecord>>, description: string, now: Int64): (r: Option<seq<BioRecord>>)
    ensures r.Some?
    ensures file.None? ==> r.value == [BioRecord(description, now)]
    ensures file.Some? ==> file.value <= r.value && |r.value| <= |file.value| + 1
    ensures file.Some? ==>
      (|r.value| == |file.value| + 1 <==>
        file.value != [] && file.value[|file.value| - 1].description != description)
    ensures file.Some? && |r.value| == |file.value| + 1 ==>
      r.value[|file.value|] == BioRecord(description, now)
  {
    match file
    case None => Some([BioRecord(description, now)])
    case Some(h) =>
      if |h| > 0 && h[|h| - 1].description != description then
        Some(h + [BioRecord(description, now)])
      else
        file
  }

  /** A second check with unchanged text writes nothing. */
  lemma BioStepIdempotent(file: Option<seq<BioRecord>>, description: string, t1: Int64, t2: Int64)
    ensures BioStep(BioStep(file, description, t1), description, t2) == BioStep(file, description, t1)
  {
  }

  /** A log without neighbouring repeats keeps that property. */
  lemma BioStepKeepsNoRepeats(file: Option<seq<BioRecord>>, description: string, now: Int64)
    requires file.Some? ==> NoRepeats(file.value)
    ensures NoRepeats(BioStep(file, description, now).value)
  {
    if file.Some? {
      var h := file.value;
      var r := BioStep(file, description, now).value;
      forall i | 0 < i < |r|
        ensures r[i - 1].description != r[i].description
      {
        if i < |h| {
          assert r[i - 1] == h[i - 1] && r[i] == h[i];
        }
      }
    }
  }

  /** A change from A to B and back to A leaves three records, not two. */
  lemma BioStepRevertIsRecorded(a: string, b: string, t1: Int64, t2: Int64, t3: Int64)
    requires a != b
    ensures BioStep(BioStep(BioStep(None, a, t1), b, t2), a, t3)
         == Some([BioRecord(a, t1), BioRecord(b, t2), BioRecord(a, t3)])
  {
    var h1 := [BioRecord(a, t1)];
    var h2 := h1 + [BioRecord(b, t2)];
    assert BioStep(Some(h1), b, t2) == Some(h2);
    assert h2[|h2| - 1].description == b;
    assert BioStep(Some(h2), a, t3) == Some(h2 + [BioRecord(a, t3)]);
    assert h2 + [BioRecord(a, t3)] == [BioRecord(a, t1), BioRecord(b, t2), BioRecord(a, t3)];
  }
}
