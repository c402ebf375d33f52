/** The paginated listing of the return rows. */
module ReturnPages {
  import opened Model

  /** LIMIT and OFFSET over a listing in a fixed order; the database refuses a negative one. */
  function GetPaginated(rows: seq<ReturnEntry>, page: int, limit: int): (r: Option<seq<ReturnEntry>>)
    ensures r == None <==> limit < 0 || (page - 1) * limit < 0
    ensures r.Some? ==>
              var offset, n := (page - 1) * limit, |r.value|;
              && n <= limit && (n < limit && offset <= |rows| ==> offset + n == |rows|) && (offset > |rows| ==> n == 0)
              && forall i :: 0 <= i < n ==> offset + i < |rows| && r.value[i] == rows[offset + i]
  {
    var offset := (page - 1) * limit;
    if limit < 0 || offset < 0 then None
    else if offset >= |rows| then Some([])
    else if offset + limit >= |rows| then Some(rows[offset..])
    else Some(rows[offset..offset + limit])
  }

  function Pages(rows: seq<ReturnEntry>, limit: nat, n: nat): seq<ReturnEntry> {
    if n == 0 then []
    else
      var page := GetPaginated(rows, n, limit);
      Pages(rows, limit, n - 1) + if page.Some? then page.value else []
  }

  /** The first `n` pages are the first `n * limit` rows: no row is skipped, repeated or moved. */
  lemma {:induction false} PagesPartition(rows: seq<ReturnEntry>, limit: nat, n: nat)
    ensures Pages(rows, limit, n) == if n * limit < |rows| then rows[..n * limit] else rows
    ensures n * limit >= |rows| ==> GetPaginated(rows, n + 1, limit) == Some([])
  {
    if n > 0 {
      PagesPartition(rows, limit, n - 1);
      assert n * limit == (n - 1) * limit + limit;
    }
  }
}
