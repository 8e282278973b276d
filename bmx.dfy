/**
 * The data model shared by the core and its providers (mod_bmx.h):
 * typed bean properties, objectnames, the wildcard query, beans, and the
 * status codes the handler and the query hooks return.
 */
module Bmx {
  import opened Wrappers
  import opened AprTable

  // C integer types of the property values.
  type Int32 = x: int | -0x8000_0000 <= x < 0x8000_0000
  type UInt8 = x: int | 0 <= x < 0x100
  type Int16 = x: int | -0x8000 <= x < 0x8000
  type UInt16 = x: int | 0 <= x < 0x1_0000
  type UInt32 = x: int | 0 <= x < 0x1_0000_0000
  type Int64 = x: int | -0x8000_0000_0000_0000 <= x < 0x8000_0000_0000_0000
  type UInt64 = x: int | 0 <= x < 0x1_0000_0000_0000_0000

  // Handler and hook results (httpd.h).
  const OK: int := 0
  const DECLINED: int := -1
  const HTTP_BAD_REQUEST: int := 400
  const HTTP_INTERNAL_SERVER_ERROR: int := 500

  // Request method numbers (httpd.h).
  const M_GET: int := 0
  const M_PUT: int := 1
  const M_POST: int := 2

  // apr_status_t results.
  const APR_SUCCESS: int := 0
  const APR_EINVAL: int := 22

  /**
   * The value of a bean property: one variant per value_type, each holding
   * the union member that value_type selects. A STRING property may hold a
   * NULL pointer. A user-defined (BMX_OTHER) value is an opaque handle that
   * only its print_fn can render; floating-point values are kept as reals.
   */
  datatype Value =
    | NullValue
    | Boolean(flag: Int32)
    | Byte(byte: UInt8)
    | Int16Value(int16: Int16)
    | UInt16Value(uint16: UInt16)
    | Int32Value(int32: Int32)
    | UInt32Value(uint32: UInt32)
    | Int64Value(int64: Int64)
    | UInt64Value(uint64: UInt64)
    | FloatValue(f: real)
    | DoubleValue(d: real)
    | StringValue(s: Option<string>)
    | OtherValue(handle: nat)

  /** A key/value pair contained in a bean. */
  datatype Property = Property(key: string, value: Value)

  /**
   * The domain of a bean plus its key/value constraints. A NULL table
   * (props == None) is not the same thing as a present, empty table.
   */
  datatype Objectname = Objectname(domain: Option<string>, props: Option<Table>)

  /**
   * A query: the distinguished wildcard object BMX_QUERY_ALL, recognised by
   * identity and never by its contents, or an objectname parsed from the
   * request.
   */
  datatype Query = QueryAll | Named(name: Objectname)

  /** What a print callback receives: a bean's objectname and its properties in order. */
  datatype BeanValue = BeanValue(objectname: Objectname, properties: seq<Property>)

  /** The result of one query hook: its status and the beans it printed, in order. */
  datatype HookResult = HookResult(rv: int, printed: seq<BeanValue>)

  /**
   * The conversions the model leaves to the C library and to provider code:
   * "%f" for floating-point values and the print_fn of a BMX_OTHER property.
   */
  datatype Formatters = Formatters(fixedPoint: real -> string, printFn: nat -> Option<string>)

  const Two64: int := 0x1_0000_0000_0000_0000

  /** The conversion of a counter or time to apr_uint64_t: modulo 2^64. */
  function Wrap64(n: int): UInt64 {
    n % Two64
  }

  /** The conversion of a count to apr_uint32_t: modulo 2^32. */
  function Wrap32(n: int): UInt32 {
    n % 0x1_0000_0000
  }

  /** A value that fits is kept; any other is replaced by the one congruent to it modulo 2^64. */
  lemma Wrap64Keeps(n: int)
    ensures 0 <= n < Two64 ==> Wrap64(n) == n
    ensures (Wrap64(n) - n) % Two64 == 0
  {
  }

  /** The same for 2^32. */
  lemma Wrap32Keeps(n: int)
    ensures 0 <= n < 0x1_0000_0000 ==> Wrap32(n) == n
    ensures (Wrap32(n) - n) % 0x1_0000_0000 == 0
  {
  }

  /** bmx_property_uint64_create. */
  function U64(key: string, n: int): Property {
    Property(key, UInt64Value(Wrap64(n)))
  }

  /** bmx_property_string_create with a non-NULL string. */
  function StringProperty(key: string, s: string): Property {
    Property(key, StringValue(Some(s)))
  }

  /** bmx_objectname_create: the given domain and a present, empty table. */
  function CreateObjectname(domain: string): (on: Objectname)
    ensures on.domain == Some(domain) && on.props == Some([])
  {
    Objectname(Some(domain), Some([]))
  }

  /** A bean: an objectname and a ring of properties kept in insertion order. */
  class Bean {
    var objectname: Objectname
    var properties: seq<Property>

    /** bmx_bean_init: the given objectname and an empty ring. */
    constructor Init(on: Objectname)
      ensures objectname == on && properties == []
    {
      objectname := on;
      properties := [];
    }

    /** bmx_bean_prop_add: insert at the tail of the ring. */
    method AddProperty(p: Property)
      modifies this
      ensures objectname == old(objectname)
      ensures properties == old(properties) + [p]
    {
      properties := properties + [p];
    }

    /** The bean as the print callback sees it. */
    function Snapshot(): (b: BeanValue)
      reads this
    {
      BeanValue(objectname, properties)
    }
  }
}
