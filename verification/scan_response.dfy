/** The decoded answer of the scan endpoint and the two values derived from
    it: whether the ticket was accepted and the message to show. */
module ScanResponseModel {
  import opened Wrappers
  import opened Text

  datatype ScanResponse = ScanResponse(
    status: Option<string>,
    action: Option<string>,
    result: Option<string>,
    concession: Option<int>)

  /** The `result` value that signals an accepted ticket, compared upper-cased. */
  const SuccessWord := "SUCCESS"

  /** `isSuccess`: the upper-cased `result` is "SUCCESS". */
  predicate IsSuccess(r: ScanResponse) {
    r.result.Some? && Uppercased(r.result.value) == SuccessWord
  }

  /** `displayMessage`: the server's `status` when present; otherwise a fixed
      approval text, or on a rejection the raw `result` before a fixed text. */
  function DisplayMessage(r: ScanResponse): (m: string)
    ensures r.status.Some? ==> m == r.status.value
    ensures r.status.None? && IsSuccess(r) ==> m == "Valid Ticket"
    ensures r.status.None? && !IsSuccess(r) && r.result.Some? ==> m == r.result.value
    ensures r.status.None? && r.result.None? ==> m == "Ticket validation failed"
  {
    if IsSuccess(r) then r.status.GetOr("Valid Ticket")
    else r.status.GetOr(r.result.GetOr("Ticket validation failed"))
  }

  /** One character upper-cases to an ASCII capital exactly when it is that
      capital or its lower-case letter. */
  lemma UpperAsciiMatches(c: char, upper: char, lower: char)
    requires 'A' <= upper <= 'Z' && lower as int == upper as int + 32
    ensures UpperAscii(c) == upper <==> c == upper || c == lower
  {
  }

  /** `isSuccess` holds exactly when `result` is present and spells "SUCCESS"
      in any mix of cases, so "success" and "Success" are accepted. */
  lemma {:induction false} IsSuccessIgnoresCase(r: ScanResponse)
    ensures IsSuccess(r) <==>
      r.result.Some? && MatchesIgnoringCase(r.result.value, SuccessWord, "success")
  {
    if r.result.Some? {
      var s := r.result.value;
      var u := Uppercased(s);
      if MatchesIgnoringCase(s, SuccessWord, "success") {
        forall i | 0 <= i < |s|
          ensures u[i] == SuccessWord[i]
        {
          UpperAsciiMatches(s[i], SuccessWord[i], "success"[i]);
        }
        assert u == SuccessWord;
      }
      if u == SuccessWord {
        forall i | 0 <= i < |s|
          ensures s[i] == SuccessWord[i] || s[i] == "success"[i]
        {
          assert u[i] == UpperAscii(s[i]);
          UpperAsciiMatches(s[i], SuccessWord[i], "success"[i]);
        }
      }
    }
  }

  /** Concrete spellings: "success" and "Success" pass, an absent result and
      "SUCCESSFUL" do not. */
  lemma IsSuccessExamples(r: ScanResponse)
    ensures IsSuccess(r.(result := Some("success")))
    ensures IsSuccess(r.(result := Some("Success")))
    ensures !IsSuccess(r.(result := None))
    ensures !IsSuccess(r.(result := Some("SUCCESSFUL")))
  {
    IsSuccessIgnoresCase(r.(result := Some("success")));
    IsSuccessIgnoresCase(r.(result := Some("Success")));
  }

  /** `action` and `concession` never change the verdict or the message. */
  lemma DerivationsIgnoreActionAndConcession(r: ScanResponse, action: Option<string>, concession: Option<int>)
    ensures IsSuccess(r.(action := action, concession := concession)) == IsSuccess(r)
    ensures DisplayMessage(r.(action := action, concession := concession)) == DisplayMessage(r)
  {
  }
}
