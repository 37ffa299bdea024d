/**
 * The main process's session and device settings: the password-to-role
 * login (main.js:79-86) and the USB printer ids kept in the settings store
 * (main.js:89-129).
 */
module Settings {
  import opened Wrappers

  datatype Role = Admin | Staff

  /** The process-wide `userRole`; `None` is `null`. */
  datatype Session = Session(role: Option<Role>)

  /** `login`: every attempt overwrites the role, so a wrong password
      also ends an earlier session. */
  function Login(s: Session, password: string): (r: (Session, Option<Role>))
    ensures r.1 == Some(Admin) <==> password == "1212"
    ensures r.1 == Some(Staff) <==> password == "1000"
    ensures r.1.None? <==> password != "1212" && password != "1000"
    ensures r.0.role == r.1
  {
    var role := if password == "1212" then Some(Admin)
                else if password == "1000" then Some(Staff)
                else None;
    (Session(role), role)
  }

  /** `get-user-role`. */
  function UserRole(s: Session): Option<Role>
  {
    s.role
  }

  /** The role reported afterwards depends on the last attempt alone. */
  lemma LastLoginDecides(s: Session, first: string, second: string)
    ensures UserRole(Login(Login(s, first).0, second).0) == Login(s, second).1
    ensures second != "1212" && second != "1000" ==>
              UserRole(Login(Login(s, first).0, second).0).None?
  {
  }

  /** One saved printer configuration: two hexadecimal id strings. */
  datatype PrinterConfig = PrinterConfig(vendorId: string, productId: string)

  /** The fallback used when nothing was saved. */
  const DefaultConfig := PrinterConfig("0x0525", "0xA700")

  /** What the renderer sends; `None` is a missing or `null` field. */
  datatype ConfigInput = ConfigInput(vendorId: Option<string>, productId: Option<string>)

  datatype ConfigError = MissingIds | InvalidHexFormat | InvalidHexValues

  predicate IsHexDigit(c: char)
  {
    '0' <= c <= '9' || 'a' <= c <= 'f' || 'A' <= c <= 'F'
  }

  function HexValue(c: char): (v: nat)
    ensures v < 16
  {
    if '0' <= c <= '9' then (c as int - '0' as int) as nat
    else if 'a' <= c <= 'f' then (c as int - 'a' as int + 10) as nat
    else if 'A' <= c <= 'F' then (c as int - 'A' as int + 10) as nat
    else 0
  }

  /** `/^0x[0-9a-fA-F]{4}$/.test(s)`. */
  predicate IsHexId(s: string)
  {
    && |s| == 6 && s[0] == '0' && s[1] == 'x'
    && forall i :: 2 <= i < 6 ==> IsHexDigit(s[i])
  }

  /** A JavaScript value is truthy here when present and non-empty. */
  predicate Present(f: Option<string>)
  {
    f.Some? && f.value != ""
  }

  /** The number of leading hexadecimal digits. */
  function HexRun(s: string): (n: nat)
    ensures n <= |s| && forall i :: 0 <= i < n ==> IsHexDigit(s[i])
    ensures n < |s| ==> !IsHexDigit(s[n])
    decreases |s|
  {
    if s != [] && IsHexDigit(s[0]) then 1 + HexRun(s[1..]) else 0
  }

  /** The value of a run of hexadecimal digits, most significant first. */
  function HexNat(s: string): nat
    decreases |s|
  {
    if s == [] then 0 else HexNat(s[..|s| - 1]) * 16 + HexValue(s[|s| - 1])
  }

  lemma {:induction false} HexNatBound(s: string)
    ensures HexNat(s) < Pow16(|s|)
    decreases |s|
  {
    if s != [] {
      HexNatBound(s[..|s| - 1]);
    }
  }

  function Pow16(k: nat): nat
  {
    if k == 0 then 1 else 16 * Pow16(k - 1)
  }

  /** `parseInt(s, 16)` on strings without leading blanks or sign: an
      optional `0x`/`0X`, then the longest run of hexadecimal digits;
      `None` (NaN) when there is none. */
  function ParseHex(s: string): (r: Option<nat>)
    ensures r.None? <==> var body := if |s| >= 2 && s[0] == '0' && (s[1] == 'x' || s[1] == 'X') then s[2..] else s;
                         body == [] || !IsHexDigit(body[0])
  {
    var body := if |s| >= 2 && s[0] == '0' && (s[1] == 'x' || s[1] == 'X') then s[2..] else s;
    var n := HexRun(body);
    if n == 0 then None else Some(HexNat(body[..n]))
  }

  /** Every id the format check accepts parses, to a 16-bit value. */
  lemma HexIdParses(s: string)
    requires IsHexId(s)
    ensures ParseHex(s).Some? && ParseHex(s).value < 65536
  {
    var body := s[2..];
    assert IsHexDigit(body[0]);
    assert HexRun(body) == 4 by {
      assert body[1..][1..][1..][1..] == [];
    }
    HexNatBound(body[..4]);
    assert Pow16(4) == 65536;
  }

  /** The lower-case hexadecimal digit of `d`. */
  function HexDigit(d: nat): (c: char)
    requires d < 16
    ensures IsHexDigit(c) && HexValue(c) == d
  {
    if d < 10 then ('0' as int + d) as char else ('a' as int + d - 10) as char
  }

  /** A 16-bit id written as four hexadecimal digits, most significant first. */
  function Hex4(n: nat): (s: string)
    requires n < 65536
    ensures |s| == 4
  {
    [HexDigit(n / 4096), HexDigit(n / 256 % 16), HexDigit(n / 16 % 16), HexDigit(n % 16)]
  }

  /** The value of four hexadecimal digits, most significant first. */
  lemma HexNat4(s: string)
    requires |s| == 4
    ensures HexNat(s) == ((HexValue(s[0]) * 16 + HexValue(s[1])) * 16 + HexValue(s[2])) * 16 + HexValue(s[3])
  {
    assert s[..3][..2] == s[..2];
    assert s[..2][..1] == s[..1];
    assert s[..1][..0] == [];
    assert HexNat(s[..1]) == HexValue(s[0]);
    assert HexNat(s[..2]) == HexNat(s[..1]) * 16 + HexValue(s[1]);
    assert HexNat(s[..3]) == HexNat(s[..2]) * 16 + HexValue(s[2]);
    assert HexNat(s) == HexNat(s[..3]) * 16 + HexValue(s[3]);
  }

  /** The four digits of `Hex4` recombine to the value. */
  lemma Hex4Digits(n: nat)
    requires n < 65536
    ensures ((n / 4096 * 16 + n / 256 % 16) * 16 + n / 16 % 16) * 16 + n % 16 == n
  {
  }

  /** Every 16-bit id written as `0x` and four digits passes the format
      check, and `parseInt(…, 16)` reads it back. */
  lemma Hex4RoundTrip(n: nat)
    requires n < 65536
    ensures IsHexId("0x" + Hex4(n))
    ensures ParseHex("0x" + Hex4(n)) == Some(n)
  {
    var s := "0x" + Hex4(n);
    var body := s[2..];
    assert body == Hex4(n);
    assert HexRun(body) == 4 by {
      assert body[1..][1..][1..][1..] == [];
    }
    assert body[..4] == body;
    HexNat4(body);
    Hex4Digits(n);
  }

  /** `save-printer-config`: both ids must be present, both must match the
      format, and both must parse; only then is the configuration stored.
      `stored` is the settings entry, `None` when nothing was saved. */
  function SavePrinterConfig(stored: Option<PrinterConfig>, input: Option<ConfigInput>)
    : (r: (Option<PrinterConfig>, Result<PrinterConfig, ConfigError>))
    ensures r.1.Failure? ==> r.0 == stored
    ensures r.1.Success? ==> r.0 == Some(r.1.value)
    ensures r.1 == Failure(MissingIds) <==>
              input.None? || !Present(input.value.vendorId) || !Present(input.value.productId)
    ensures r.1.Success? <==>
              && input.Some? && Present(input.value.vendorId) && Present(input.value.productId)
              && IsHexId(input.value.vendorId.value) && IsHexId(input.value.productId.value)
    ensures r.1.Success? ==>
              r.1.value == PrinterConfig(input.value.vendorId.value, input.value.productId.value)
  {
    if input.None? || !Present(input.value.vendorId) || !Present(input.value.productId) then
      (stored, Failure(MissingIds))
    else
      var v := input.value.vendorId.value;
      var p := input.value.productId.value;
      if !IsHexId(v) || !IsHexId(p) then (stored, Failure(InvalidHexFormat))
      else
        HexIdParses(v);
        HexIdParses(p);
        var vn := ParseHex(v);
        var pn := ParseHex(p);
        if vn.None? || pn.None? then (stored, Failure(InvalidHexValues))
        else
          var c := PrinterConfig(v, p);
          (Some(c), Success(c))
  }

  /** The third check can never fire: the format check already implies
      that both ids parse. */
  lemma HexValuesCheckUnreachable(stored: Option<PrinterConfig>, input: Option<ConfigInput>)
    ensures SavePrinterConfig(stored, input).1 != Failure(InvalidHexValues)
  {
  }

  /** What `get-printer-config` answers: the ids and their decimal
      values. */
  datatype PrinterView = PrinterView(vendorId: string, productId: string,
                                     vendorIdDec: Option<nat>, productIdDec: Option<nat>)

  function GetPrinterConfig(stored: Option<PrinterConfig>): (r: PrinterView)
    ensures stored.None? ==> r.vendorId == DefaultConfig.vendorId && r.productId == DefaultConfig.productId
    ensures stored.Some? ==> r.vendorId == stored.value.vendorId && r.productId == stored.value.productId
    ensures r.vendorIdDec == ParseHex(r.vendorId) && r.productIdDec == ParseHex(r.productId)
  {
    var c := if stored.Some? then stored.value else DefaultConfig;
    PrinterView(c.vendorId, c.productId, ParseHex(c.vendorId), ParseHex(c.productId))
  }

  /** Settings that only ever changed through a successful save hold valid
      ids, so the decimal values shown are 16-bit numbers. */
  predicate ValidStored(stored: Option<PrinterConfig>)
  {
    stored.Some? ==> IsHexId(stored.value.vendorId) && IsHexId(stored.value.productId)
  }

  lemma SaveKeepsValid(stored: Option<PrinterConfig>, input: Option<ConfigInput>)
    requires ValidStored(stored)
    ensures ValidStored(SavePrinterConfig(stored, input).0)
  {
  }

  lemma ViewOfValid(stored: Option<PrinterConfig>)
    requires ValidStored(stored)
    ensures var v := GetPrinterConfig(stored);
            && v.vendorIdDec.Some? && v.vendorIdDec.value < 65536
            && v.productIdDec.Some? && v.productIdDec.value < 65536
  {
    if stored.Some? {
      HexIdParses(stored.value.vendorId);
      HexIdParses(stored.value.productId);
    } else {
      DefaultIds();
    }
  }

  /** The fallback ids pass the save checks and decode to 1317 and
      42752. */
  lemma DefaultIds()
    ensures IsHexId(DefaultConfig.vendorId) && IsHexId(DefaultConfig.productId)
    ensures ParseHex(DefaultConfig.vendorId) == Some(1317)
    ensures ParseHex(DefaultConfig.productId) == Some(42752)
  {
    var v := DefaultConfig.vendorId[2..];
    var p := DefaultConfig.productId[2..];
    assert v == "0525" && p == "A700";
    assert HexRun(v) == 4 by { assert v[1..][1..][1..][1..] == []; }
    assert HexRun(p) == 4 by { assert p[1..][1..][1..][1..] == []; }
    assert v[..4] == v && p[..4] == p;
    assert v[..3] == "052" && v[..2] == "05" && v[..1] == "0" && v[..0] == "";
    assert p[..3] == "A70" && p[..2] == "A7" && p[..1] == "A" && p[..0] == "";
    assert v[..3][..2] == v[..2] && v[..2][..1] == v[..1] && v[..1][..0] == [];
    assert HexNat(v[..1]) == 0;
    assert HexNat(v[..2]) == HexNat(v[..1]) * 16 + HexValue('5') == 5;
    assert HexNat(v[..3]) == 82;
    assert HexNat(v) == 1317;
    assert p[..3][..2] == p[..2] && p[..2][..1] == p[..1] && p[..1][..0] == [];
    assert HexNat(p[..1]) == 10 && HexNat(p[..2]) == 167 && HexNat(p[..3]) == 2672;
    assert HexNat(p) == 42752;
  }
}
