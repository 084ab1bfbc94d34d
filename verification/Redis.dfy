/** The Redis server as an object: hashes, counters and the commands the stores send. */
module RedisServer {
  import opened Prelude
  import opened Grants
  import opened Stores

  /**
   * Every command takes the fault that befalls it. `None` stands for an error reply, which the client
   * library also reports when GET or HGET finds nothing.
   */
  class Redis {
    var access: map<Tag, Token>
    var refresh: map<Tag, Token>
    var tokenUsage: Option<u64>
    var codes: map<Tag, Grant>
    var codeUsage: Option<u64>

    ghost function Content(): Store
      reads this
    {
      Store(access, refresh, tokenUsage, codes, codeUsage)
    }

    constructor ()
      ensures Content() == EMPTY_STORE
    {
      access, refresh, tokenUsage, codes, codeUsage := map[], map[], None, map[], None;
    }

    method GetTokenUsage(fault: Fault) returns (value: Option<u64>)
      ensures value == if fault.Healthy? then tokenUsage else None
    {
      value := if fault.Healthy? then tokenUsage else None;
    }

    method SetTokenUsage(value: u64, fault: Fault) returns (ok: bool)
      modifies this`tokenUsage
      ensures ok == fault.Healthy?
      ensures tokenUsage == if fault.Executed() then Some(value) else old(tokenUsage)
    {
      if fault.Executed() { tokenUsage := Some(value); }
      ok := fault.Healthy?;
    }

    method HgetAccess(key: Tag, fault: Fault) returns (token: Option<Token>)
      ensures token == Lookup(access, key, fault)
    {
      token := if fault.Healthy? && key in access then Some(access[key]) else None;
    }

    method HgetRefresh(key: Tag, fault: Fault) returns (token: Option<Token>)
      ensures token == Lookup(refresh, key, fault)
    {
      token := if fault.Healthy? && key in refresh then Some(refresh[key]) else None;
    }

    /** Writes in any case, and answers with the number of fields that were new. */
    method HsetAccess(key: Tag, token: Token, fault: Fault) returns (added: Option<nat>)
      modifies this`access
      ensures access == if fault.Executed() then old(access)[key := token] else old(access)
      ensures added == if fault.Healthy? then Some(if key in old(access) then 0 else 1) else None
    {
      added := if fault.Healthy? then Some(if key in access then 0 else 1) else None;
      if fault.Executed() { access := access[key := token]; }
    }

    method HsetRefresh(key: Tag, token: Token, fault: Fault) returns (added: Option<nat>)
      modifies this`refresh
      ensures refresh == if fault.Executed() then old(refresh)[key := token] else old(refresh)
      ensures added == if fault.Healthy? then Some(if key in old(refresh) then 0 else 1) else None
    {
      added := if fault.Healthy? then Some(if key in refresh then 0 else 1) else None;
      if fault.Executed() { refresh := refresh[key := token]; }
    }

    /** Answers with the number of fields removed. */
    method HdelAccess(key: Tag, fault: Fault) returns (removed: Option<nat>)
      modifies this`access
      ensures access == if fault.Executed() then old(access) - {key} else old(access)
      ensures removed == if fault.Healthy? then Some(if key in old(access) then 1 else 0) else None
    {
      removed := if fault.Healthy? then Some(if key in access then 1 else 0) else None;
      if fault.Executed() { access := access - {key}; }
    }

    method HdelRefresh(key: Tag, fault: Fault) returns (removed: Option<nat>)
      modifies this`refresh
      ensures refresh == if fault.Executed() then old(refresh) - {key} else old(refresh)
      ensures removed == if fault.Healthy? then Some(if key in old(refresh) then 1 else 0) else None
    {
      removed := if fault.Healthy? then Some(if key in refresh then 1 else 0) else None;
      if fault.Executed() { refresh := refresh - {key}; }
    }

    method GetCodeUsage(fault: Fault) returns (value: Option<u64>)
      ensures value == if fault.Healthy? then codeUsage else None
    {
      value := if fault.Healthy? then codeUsage else None;
    }

    method SetCodeUsage(value: u64, fault: Fault) returns (ok: bool)
      modifies this`codeUsage
      ensures ok == fault.Healthy?
      ensures codeUsage == if fault.Executed() then Some(value) else old(codeUsage)
    {
      if fault.Executed() { codeUsage := Some(value); }
      ok := fault.Healthy?;
    }

    method HgetCode(key: Tag, fault: Fault) returns (grant: Option<Grant>)
      ensures grant == Lookup(codes, key, fault)
    {
      grant := if fault.Healthy? && key in codes then Some(codes[key]) else None;
    }

    method HsetCode(key: Tag, grant: Grant, fault: Fault) returns (added: Option<nat>)
      modifies this`codes
      ensures codes == if fault.Executed() then old(codes)[key := grant] else old(codes)
      ensures added == if fault.Healthy? then Some(if key in old(codes) then 0 else 1) else None
    {
      added := if fault.Healthy? then Some(if key in codes then 0 else 1) else None;
      if fault.Executed() { codes := codes[key := grant]; }
    }

    method HdelCode(key: Tag, fault: Fault) returns (removed: Option<nat>)
      modifies this`codes
      ensures codes == if fault.Executed() then old(codes) - {key} else old(codes)
      ensures removed == if fault.Healthy? then Some(if key in old(codes) then 1 else 0) else None
    {
      removed := if fault.Healthy? then Some(if key in codes then 1 else 0) else None;
      if fault.Executed() { codes := codes - {key}; }
    }
  }
}
