/** Validation of a request to the DNS query tool (`DnsQueryRequest::validate`). */
module DnsQuery {
  import opened Wrappers
  import Text

  /** The record types the query tool accepts, in the order the error message lists them. */
  const VALID_RECORD_TYPES: seq<string> := ["A", "AAAA", "CNAME", "MX", "TXT", "PTR", "NS", "SOA", "SRV"]

  /** Longest accepted domain, in UTF-8 bytes. */
  const MAX_DOMAIN_BYTES: nat := 255

  datatype DnsQueryRequest = DnsQueryRequest(domain: string, recordType: string)

  datatype ValidationError = ValidationError(field: string, message: string)

  const EMPTY_DOMAIN: ValidationError := ValidationError("domain", "Domain cannot be empty")
  const LONG_DOMAIN: ValidationError := ValidationError("domain", "Domain cannot exceed 255 characters")
  const BAD_RECORD_TYPE: ValidationError :=
    ValidationError("record_type", "Invalid record type. Must be one of: A, AAAA, CNAME, MX, TXT, PTR, NS, SOA, SRV")

  /** The upper-cased record type is one of the accepted ones. */
  predicate IsValidRecordType(recordType: string) {
    Text.ToUpper(recordType) in VALID_RECORD_TYPES
  }

  /**
   * `DnsQueryRequest::validate`: collect the domain error (empty, or longer than 255
   * bytes) and then the record-type error; succeed exactly when none was collected.
   */
  method Validate(req: DnsQueryRequest) returns (r: Result<(), seq<ValidationError>>)
    ensures r.Ok? <==>
      req.domain != [] && Text.Utf8Len(req.domain) <= MAX_DOMAIN_BYTES && IsValidRecordType(req.recordType)
    ensures r.Err? ==> 1 <= |r.error| <= 2
    ensures r.Err? ==> (EMPTY_DOMAIN in r.error <==> req.domain == [])
    ensures r.Err? ==> (LONG_DOMAIN in r.error <==> req.domain != [] && Text.Utf8Len(req.domain) > MAX_DOMAIN_BYTES)
    ensures r.Err? ==> (BAD_RECORD_TYPE in r.error <==> !IsValidRecordType(req.recordType))
    ensures r.Err? ==> forall e :: e in r.error ==> e == EMPTY_DOMAIN || e == LONG_DOMAIN || e == BAD_RECORD_TYPE
    ensures r.Err? && |r.error| == 2 ==> r.error[0].field == "domain" && r.error[1] == BAD_RECORD_TYPE
  {
    ErrorsDistinct();
    var errors: seq<ValidationError> := [];
    if req.domain == [] {
      errors := errors + [EMPTY_DOMAIN];
    } else if Text.Utf8Len(req.domain) > MAX_DOMAIN_BYTES {
      errors := errors + [LONG_DOMAIN];
    }
    assert errors == [] || errors == [EMPTY_DOMAIN] || errors == [LONG_DOMAIN];
    if !IsValidRecordType(req.recordType) {
      errors := errors + [BAD_RECORD_TYPE];
    }
    if errors == [] {
      r := Ok(());
    } else {
      r := Err(errors);
    }
  }

  /** The three errors are told apart by their field or their message. */
  lemma ErrorsDistinct()
    ensures EMPTY_DOMAIN != LONG_DOMAIN && EMPTY_DOMAIN != BAD_RECORD_TYPE && LONG_DOMAIN != BAD_RECORD_TYPE
  {
    assert EMPTY_DOMAIN.message[15] != LONG_DOMAIN.message[15];
    assert EMPTY_DOMAIN.field[0] != BAD_RECORD_TYPE.field[0];
  }

  /** Case does not matter: a type is accepted exactly when its upper-cased form is. */
  lemma RecordTypeCaseInsensitive(recordType: string)
    ensures IsValidRecordType(recordType) <==> IsValidRecordType(Text.ToUpper(recordType))
  {
    assert Text.ToUpper(Text.ToUpper(recordType)) == Text.ToUpper(recordType);
  }

  /** Spellings the source's tests accept and reject. */
  lemma RecordTypeExamples()
    ensures IsValidRecordType("aaaa") && IsValidRecordType("A") && IsValidRecordType("Srv")
    ensures !IsValidRecordType("INVALID") && !IsValidRecordType("")
  {
    assert Text.ToUpper("aaaa") == "AAAA";
    assert Text.ToUpper("Srv") == "SRV";
    assert Text.ToUpper("A") == "A";
    assert Text.ToUpper("INVALID") == "INVALID";
  }
}
