/** Where a follower resumes (agentservice/handler_follow.go). */
module Follow {
  import opened Wrappers
  import opened Decimal

  datatype FollowError = InvalidFrom | FromExceedsBuffer

  /** parseFollowFrom: the `from` query parameter, or else the Last-Event-ID header, names the last
      event seen; an empty value means the start of the buffer. The successor wraps as a 64-bit
      int does. */
  function ParseFollowFrom(query: string, header: string, bufLen: nat): Result<int, FollowError> {
    var raw := if query == "" then header else query;
    if raw == "" then Ok(0)
    else
      match Atoi(raw)
      case None => Err(InvalidFrom)
      case Some(n) =>
        if n < 0 then Err(InvalidFrom)
        else
          var start := Wrap(n + 1);
          if start > bufLen then Err(FromExceedsBuffer) else Ok(start)
  }

  /** The printed id of a buffered event resumes right after it. */
  lemma {:induction false} FollowResumesAfter(i: nat, header: string, bufLen: nat)
    requires i < bufLen <= MAX_INT
    ensures ParseFollowFrom(Itoa(i), header, bufLen) == Ok(i + 1)
  {
    AtoiOfItoa(i);
  }

  /** The id one past the buffer, which only a synthetic terminal carries, is refused. */
  lemma {:induction false} FollowRefusesPastBuffer(i: nat, header: string, bufLen: nat)
    requires bufLen <= i < MAX_INT
    ensures ParseFollowFrom(Itoa(i), header, bufLen) == Err(FromExceedsBuffer)
  {
    AtoiOfItoa(i);
  }

  /** An accepted start lies within the buffer exactly when the value is not the largest int: the
      bound check then compares the wrapped successor, which is negative. */
  lemma {:induction false} AcceptedStartInBuffer(query: string, header: string, bufLen: nat)
    requires bufLen <= MAX_INT
    requires ParseFollowFrom(query, header, bufLen).Ok?
    ensures 0 <= ParseFollowFrom(query, header, bufLen).value <= bufLen <==>
            Atoi(if query == "" then header else query) != Some(MAX_INT)
  {
    assert Wrap(MAX_INT + 1) == MIN_INT;
  }

  lemma {:induction false} LargestFromWraps(bufLen: nat)
    ensures ParseFollowFrom(Itoa(MAX_INT), "", bufLen) == Ok(MIN_INT)
  {
    AtoiOfItoa(MAX_INT);
    assert Wrap(MAX_INT + 1) == MIN_INT;
  }
}
