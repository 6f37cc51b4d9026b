/** The OpenCL runtime as the library sees it: opaque platform, device and
    program values, and the driver calls it makes, each reduced to a
    deterministic function that returns a status. */
module OpenCl {
  import opened Outcomes

  newtype byte = x: int | 0 <= x < 0x100
  /** `cl_int`, the type of every OpenCL status code. */
  newtype int32 = x: int | -0x8000_0000 <= x < 0x8000_0000
  /** `size_t` on a 64-bit target, the type of the cache hash. */
  newtype uint64 = x: int | 0 <= x < 0x1_0000_0000_0000_0000

  const CL_SUCCESS: int32 := 0

  datatype DeviceType = Cpu | Gpu | Accelerator | Custom
  /** A device, through the two queries the library makes of it:
      `CL_DEVICE_NAME` and `CL_DEVICE_TYPE`. */
  datatype Device = Device(name: string, kind: DeviceType)
  /** A platform, through its `CL_PLATFORM_NAME`. */
  datatype Platform = Platform(name: string)
  datatype Context = Context(id: nat)
  /** A `cl::Program`, identified by what it was created from. */
  datatype Program = FromSource(text: string) | FromBinary(bytes: seq<byte>)
  datatype KernelHandle = KernelHandle(id: nat)

  /** Result of `cl::Program(context, devices, binaries, &status, &err)`. */
  datatype BinaryLoad = BinaryLoad(err: int32, status: seq<int32>)
  /** Result of `cl::Kernel(program, name, &err)`; a failed creation yields a null handle. */
  datatype KernelCreation = KernelCreation(status: int32, handle: Option<KernelHandle>)
  /** Result of `getInfo<CL_KERNEL_NUM_ARGS>(&err)`. */
  datatype ArgCount = ArgCount(status: int32, count: nat)
  /** Result of `getArgInfo<CL_KERNEL_ARG_NAME>(i, &err)`. */
  datatype ArgName = ArgName(status: int32, name: string)

  /** The OpenCL calls of the kernel cache and the build state machine. */
  datatype Driver = Driver(
    loadBinary: (seq<byte>, Device) -> BinaryLoad,
    build: (Program, Device, string) -> int32,
    binaries: (Program, Device, string) -> seq<seq<byte>>,
    buildLogStatus: (Program, Device) -> int32,
    createKernel: (Program, string) -> KernelCreation,
    numArgs: Option<KernelHandle> -> ArgCount,
    argName: (Option<KernelHandle>, nat) -> ArgName,
    setArg: (Option<KernelHandle>, nat, seq<byte>) -> int32)

  /** Host services: the seed-0 xxHash of a byte string (XXH64 on a 64-bit
      target) and `realpath`. */
  datatype Host = Host(hash: string -> uint64, absolutePath: string -> string)

  function Pow2(n: nat): (p: nat)
    ensures p >= 1
  {
    if n == 0 then 1 else 2 * Pow2(n - 1)
  }

  lemma {:induction false} Pow2Add(a: nat, b: nat)
    ensures Pow2(a + b) == Pow2(a) * Pow2(b)
  {
    if a > 0 { Pow2Add(a - 1, b); }
  }

  lemma Pow2Of32()
    ensures Pow2(32) == 0x1_0000_0000
  {
    Pow2Add(1, 1);
    Pow2Add(2, 2);
    Pow2Add(4, 4);
    Pow2Add(8, 8);
    Pow2Add(16, 16);
  }

  /** Bitwise or of two `width`-bit unsigned values. */
  function OrBits(a: nat, b: nat, width: nat): (r: nat)
    requires a < Pow2(width) && b < Pow2(width)
    ensures r < Pow2(width)
    ensures r == 0 <==> a == 0 && b == 0
  {
    if width == 0 then 0
    else 2 * OrBits(a / 2, b / 2, width - 1) + (if a % 2 == 1 || b % 2 == 1 then 1 else 0)
  }

  /** The 32-bit two's-complement pattern of a `cl_int`. */
  function Unsigned(x: int32): (u: nat)
    ensures u < 0x1_0000_0000 && (u == 0 <==> x == 0)
  {
    if x < 0 then x as int + 0x1_0000_0000 else x as int
  }

  function Signed(u: nat): (x: int32)
    requires u < 0x1_0000_0000
    ensures x == 0 <==> u == 0
  {
    (if u >= 0x8000_0000 then u - 0x1_0000_0000 else u) as int32
  }

  /** `a | b` on two `cl_int` values. */
  function BitOr(a: int32, b: int32): (r: int32)
    ensures r == 0 <==> a == 0 && b == 0
  {
    Pow2Of32();
    Signed(OrBits(Unsigned(a), Unsigned(b), 32))
  }
}
