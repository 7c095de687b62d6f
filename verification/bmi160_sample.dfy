/** Decoding of the burst reads `bmi160AccRead` and `bmi160GyroRead`: the
    seven-byte receive buffer holds a slot clocked in during the request byte
    followed by three little-endian two's complement axes. */
module Bmi160Sample {
  import opened Bytes
  import opened Bmi160Regs

  /** Length of the transmit and receive buffers. */
  const BufferSize := 7

  /** Three signed axis readings, X, Y and Z. */
  datatype Axes = Axes(x: Int16, y: Int16, z: Int16) {
    /** Axis `k` (0 = X, 1 = Y, 2 = Z). */
    function At(k: nat): Int16
      requires k < 3
    {
      if k == 0 then x else if k == 1 then y else z
    }
  }

  /** The unsigned little-endian word in slots `2k+1` (low) and `2k+2`
      (high) of a receive buffer. */
  function LittleEndian(buf: seq<Byte>, k: nat): int
    requires |buf| == BufferSize && k < 3
  {
    buf[2 * k + 2] as int * 256 + buf[2 * k + 1] as int
  }

  /** The three axes of a receive buffer. Axis `k` has the 16-bit pattern of
      the little-endian word in slots `2k+1` (low) and `2k+2` (high). */
  function DecodeAxes(buf: seq<Byte>): (a: Axes)
    requires |buf| == BufferSize
    ensures Pattern(a.x) == LittleEndian(buf, 0)
    ensures Pattern(a.y) == LittleEndian(buf, 1)
    ensures Pattern(a.z) == LittleEndian(buf, 2)
  {
    WordValue(buf[2], buf[1]);
    WordValue(buf[4], buf[3]);
    WordValue(buf[6], buf[5]);
    Axes(ToInt16(Word(buf[2], buf[1])),
         ToInt16(Word(buf[4], buf[3])),
         ToInt16(Word(buf[6], buf[5])))
  }

  /** The receive buffer a device sends for axes `a`, with `first` in the
      slot clocked in while the request byte goes out. */
  function EncodeAxes(a: Axes, first: Byte): (buf: seq<Byte>)
    ensures |buf| == BufferSize
  {
    [first, LowByte(a.x), HighByte(a.x), LowByte(a.y), HighByte(a.y), LowByte(a.z), HighByte(a.z)]
  }

  /** Decoding undoes encoding, whatever fills the first slot. */
  lemma DecodeEncode(a: Axes, first: Byte)
    ensures DecodeAxes(EncodeAxes(a, first)) == a
  {
    Int16RoundTrip(a.x);
    Int16RoundTrip(a.y);
    Int16RoundTrip(a.z);
  }

  /** Encoding the decoded axes rebuilds slots 1 to 6: decoding loses
      nothing but the first slot. */
  lemma EncodeDecode(buf: seq<Byte>)
    requires |buf| == BufferSize
    ensures EncodeAxes(DecodeAxes(buf), buf[0]) == buf
  {
    BytesRoundTrip(buf[2], buf[1]);
    BytesRoundTrip(buf[4], buf[3]);
    BytesRoundTrip(buf[6], buf[5]);
  }

  /** The first slot never affects the decoded axes. */
  lemma FirstSlotIgnored(buf: seq<Byte>, b: Byte)
    requires |buf| == BufferSize
    ensures DecodeAxes(buf[0 := b]) == DecodeAxes(buf)
  {
  }

  /** Two buffers decode to the same axes exactly when they agree on slots
      1 to 6. */
  lemma DecodeInjective(buf: seq<Byte>, buf': seq<Byte>)
    requires |buf| == BufferSize && |buf'| == BufferSize
    ensures DecodeAxes(buf) == DecodeAxes(buf') <==> buf[1..] == buf'[1..]
  {
    if DecodeAxes(buf) == DecodeAxes(buf') {
      EncodeDecode(buf);
      EncodeDecode(buf');
      assert buf[1..] == EncodeAxes(DecodeAxes(buf), buf[0])[1..];
      assert buf'[1..] == EncodeAxes(DecodeAxes(buf'), buf'[0])[1..];
    }
    if buf[1..] == buf'[1..] {
      assert forall i :: 1 <= i < BufferSize ==> buf[i] == buf[1..][i - 1];
      assert buf' == buf[0 := buf'[0]];
      FirstSlotIgnored(buf, buf'[0]);
    }
  }

  /** One burst read: the bytes sent and the axes decoded from the bytes
      received. The driver's read functions always report success. */
  datatype SampleRead = SampleRead(request: seq<Byte>, axes: Axes)

  /** `bmi160AccRead`: a burst read of the accelerometer data registers. */
  function AccRead(rx: seq<Byte>): (r: SampleRead)
    requires |rx| == BufferSize
    ensures r.request == [0x92, 0, 0, 0, 0, 0, 0]
    ensures forall k :: 0 <= k < 3 ==> Pattern(r.axes.At(k)) == LittleEndian(rx, k)
  {
    SampleRead(BurstRequest(RegAccDataXLsb), DecodeAxes(rx))
  }

  /** `bmi160GyroRead`: a burst read of the gyroscope data registers. */
  function GyroRead(rx: seq<Byte>): (r: SampleRead)
    requires |rx| == BufferSize
    ensures r.request == [0x8C, 0, 0, 0, 0, 0, 0]
    ensures forall k :: 0 <= k < 3 ==> Pattern(r.axes.At(k)) == LittleEndian(rx, k)
  {
    SampleRead(BurstRequest(RegGyrDataXLsb), DecodeAxes(rx))
  }
}
