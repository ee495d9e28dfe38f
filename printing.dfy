/** The receipt serialiser for the Bluetooth thermal printer: an ESC/POS byte
    packet with a title, a list of items, a QR code and a timestamp, sent only
    when a printer is connected. Text arrives already UTF-8 encoded. */
module Printing {
  import opened Values

  type Byte = b: int | 0 <= b < 256

  const ESC: Byte := 0x1b
  const LF: Byte := 0x0a
  const GS: Byte := 0x1d

  /** ESC @: initialise the printer. */
  const INIT: seq<Byte> := [ESC, 0x40]
  /** ESC a 1 / ESC a 0: centre or left justification. */
  const CENTER: seq<Byte> := [ESC, 0x61, 0x01]
  const LEFT: seq<Byte> := [ESC, 0x61, 0x00]
  /** ESC E 1 / ESC E 0: emphasis on and off. */
  const BOLD_ON: seq<Byte> := [ESC, 0x45, 0x01]
  const BOLD_OFF: seq<Byte> := [ESC, 0x45, 0x00]

  /** GS ( k functions 165, 167, 169 and 181: QR model 2, module size 6,
      error-correction level M, print the stored symbol. */
  const QR_MODEL: seq<Byte> := [GS, 0x28, 0x6b, 0x04, 0x00, 0x31, 0x41, 0x32, 0x00]
  const QR_SIZE: seq<Byte> := [GS, 0x28, 0x6b, 0x03, 0x00, 0x31, 0x43, 0x06]
  const QR_ERROR_LEVEL: seq<Byte> := [GS, 0x28, 0x6b, 0x03, 0x00, 0x31, 0x45, 0x31]
  const QR_PRINT: seq<Byte> := [GS, 0x28, 0x6b, 0x03, 0x00, 0x31, 0x51, 0x30]

  /** Twenty '-' and a line feed. */
  const LINE: seq<Byte> :=
    [0x2d, 0x2d, 0x2d, 0x2d, 0x2d, 0x2d, 0x2d, 0x2d, 0x2d, 0x2d,
     0x2d, 0x2d, 0x2d, 0x2d, 0x2d, 0x2d, 0x2d, 0x2d, 0x2d, 0x2d, LF]
  const LINE_FEED: seq<Byte> := [LF, LF]
  /** " - " between an item's label and value. */
  const SEPARATOR: seq<Byte> := [0x20, 0x2d, 0x20]
  /** "Date: " before the timestamp. */
  const DATE_PREFIX: seq<Byte> := [0x44, 0x61, 0x74, 0x65, 0x3a, 0x20]

  /** One receipt line: the encoded `label` (here `caption`, `label` being a keyword) and `value`. */
  datatype Item = Item(caption: seq<Byte>, value: seq<Byte>)

  predicate AllBytes(s: seq<int>) {
    forall i :: 0 <= i < |s| ==> 0 <= s[i] < 256
  }

  /** JavaScript's ToInt32: the integer modulo 2^32, read as two's complement. */
  function ToInt32(x: int): (r: int)
    ensures -0x8000_0000 <= r < 0x8000_0000
    ensures 0 <= x < 0x8000_0000 ==> r == x
  {
    var m := x % 0x1_0000_0000;
    if m >= 0x8000_0000 then m - 0x1_0000_0000 else m
  }

  /** `x >> 8`: ToInt32, then an arithmetic shift, which rounds toward minus infinity. */
  function ShiftRight8(x: int): int {
    ToInt32(x) / 256
  }

  /** `${label} - ${value}\n` */
  function ItemBytes(item: Item): seq<Byte> {
    item.caption + SEPARATOR + item.value + [LF]
  }

  /** `items.map(...).flat()`: the items' lines in input order. */
  function ItemsBytes(items: seq<Item>): (r: seq<Byte>)
    ensures items == [] ==> r == []
    ensures |items| == 1 ==> r == ItemBytes(items[0])
    ensures items != [] ==> ItemBytes(items[0]) <= r
    ensures |r| >= 4 * |items|
    decreases |items|
  {
    if items == [] then [] else ItemBytes(items[0]) + ItemsBytes(items[1..])
  }

  /** GS ( k function 180: store `data` as the QR symbol. Bytes 3 and 4 are
      pL and pH of the parameter count k = |data| + 3. */
  function QrStore(data: seq<Byte>): (r: seq<int>)
    ensures |r| == |data| + 8 && r[8..] == data
  {
    var k := |data| + 3;
    [GS, 0x28, 0x6b] + [k % 256, ShiftRight8(k)] + [0x31, 0x50, 0x30] + data
  }

  /** What a printer reads from a function-180 command at the front of `p`:
      the stored data, or `None` when `p` does not start with one. */
  function ParseQrStore(p: seq<int>): (r: Option<seq<int>>)
    ensures r.Some? ==> |p| >= 8 && r.value <= p[8..]
    ensures r.Some? ==> |r.value| + 3 == p[3] + 256 * p[4]
  {
    if |p| < 8 || p[..3] != [GS, 0x28, 0x6b] || p[5..8] != [0x31, 0x50, 0x30] then None
    else
      var k := p[3] + 256 * p[4];
      if k < 3 || |p| - 8 < k - 3 then None else Some(p[8..8 + k - 3])
  }

  /** Everything the packet holds before the QR store command, in order:
      initialise, centre, bold title line, ruler, the items and the three QR
      set-up commands. */
  function Preamble(title: seq<Byte>, items: seq<Item>): seq<Byte> {
    INIT + CENTER + BOLD_ON + (title + [LF]) + BOLD_OFF + LINE + ItemsBytes(items)
    + QR_MODEL + QR_SIZE + QR_ERROR_LEVEL
  }

  /** Everything after it: print the QR symbol, ruler, `Date: <timestamp>` and two line feeds. */
  function Trailer(timestamp: seq<Byte>): seq<Byte> {
    QR_PRINT + LINE + (DATE_PREFIX + timestamp + [LF]) + LINE_FEED
  }

  /** The packet `generateReceiptData` writes. */
  function Packet(title: seq<Byte>, items: seq<Item>, qr: seq<Byte>, timestamp: seq<Byte>): seq<int> {
    Preamble(title, items) + QrStore(qr) + Trailer(timestamp)
  }

  /** The header's two bytes recombine to k = n + 3 as long as k fits the
      31-bit range where `>>` is a plain division. */
  lemma QrHeaderLength(data: seq<Byte>)
    requires |data| + 3 < 0x8000_0000
    ensures QrStore(data)[3] + 256 * QrStore(data)[4] == |data| + 3
    ensures QrStore(data)[3] == (|data| + 3) % 256
  {
  }

  /** Storing and then reading the QR command gives back the data, whatever follows it. */
  lemma QrStoreRoundTrip(data: seq<Byte>, rest: seq<int>)
    requires |data| + 3 < 0x8000_0000
    ensures ParseQrStore(QrStore(data) + rest) == Some(data)
  {
    var p := QrStore(data) + rest;
    QrHeaderLength(data);
    assert p[..3] == [GS, 0x28, 0x6b];
    assert p[5..8] == [0x31, 0x50, 0x30];
    assert p[8..8 + |data|] == data;
  }

  /** The packet has a fixed frame of 104 command and text bytes around the
      four variable parts. */
  lemma PacketLength(title: seq<Byte>, items: seq<Item>, qr: seq<Byte>, timestamp: seq<Byte>)
    ensures |Packet(title, items, qr, timestamp)| == 104 + |title| + |ItemsBytes(items)| + |qr| + |timestamp|
  {
  }

  /** Reading the packet from the QR command onwards recovers the QR data. */
  lemma PacketCarriesQr(title: seq<Byte>, items: seq<Item>, qr: seq<Byte>, timestamp: seq<Byte>)
    requires |qr| + 3 < 0x8000_0000
    ensures ParseQrStore(Packet(title, items, qr, timestamp)[|Preamble(title, items)|..]) == Some(qr)
  {
    var before, after := Preamble(title, items), Trailer(timestamp);
    assert Packet(title, items, qr, timestamp)[|before|..] == QrStore(qr) + after;
    QrStoreRoundTrip(qr, after);
  }

  /** Every element is a byte while k = n + 3 fits in pL and pH. */
  lemma PacketIsBytes(title: seq<Byte>, items: seq<Item>, qr: seq<Byte>, timestamp: seq<Byte>)
    requires |qr| + 3 < 65536
    ensures AllBytes(Packet(title, items, qr, timestamp))
  {
    var before, after := Preamble(title, items), Trailer(timestamp);
    var store := QrStore(qr);
    assert AllBytes(store) by {
      assert store[..8] == [GS, 0x28, 0x6b, (|qr| + 3) % 256, ShiftRight8(|qr| + 3), 0x31, 0x50, 0x30];
      assert store == store[..8] + store[8..];
    }
    AllBytesConcat(before, store);
    AllBytesConcat(before + store, after);
  }

  /** Past that bound pH no longer fits a byte. */
  lemma PacketOverflows(title: seq<Byte>, items: seq<Item>, qr: seq<Byte>, timestamp: seq<Byte>)
    requires 65536 <= |qr| + 3 < 0x8000_0000
    ensures Packet(title, items, qr, timestamp)[|Preamble(title, items)| + 4] > 255
  {
    var before := Preamble(title, items);
    assert Packet(title, items, qr, timestamp)[|before| + 4] == QrStore(qr)[4];
  }

  /** Items are written in input order: the lines of a concatenation are the
      concatenated lines. */
  lemma {:induction false} ItemsBytesAppend(a: seq<Item>, b: seq<Item>)
    ensures ItemsBytes(a + b) == ItemsBytes(a) + ItemsBytes(b)
    decreases |a|
  {
    if a == [] {
      assert a + b == b;
    } else {
      assert (a + b)[1..] == a[1..] + b;
      ItemsBytesAppend(a[1..], b);
    }
  }

  lemma AllBytesConcat(a: seq<int>, b: seq<int>)
    requires AllBytes(a) && AllBytes(b)
    ensures AllBytes(a + b)
  {
  }

  /** The printing store: the connection flag and the BLE service descriptor. */
  class PrintingStore {
    var isPrinterConnected: bool
    var bleService: Json

    constructor ()
      ensures !isPrinterConnected && bleService == Obj(map[])
    {
      isPrinterConnected, bleService := false, Obj(map[]);
    }

    /** The guard at the top of `generateReceiptData` passes. */
    predicate Ready()
      reads this
    {
      isPrinterConnected && Truthy(bleService)
    }

    method SetBleService(service: Json)
      modifies this
      ensures bleService == service && isPrinterConnected == old(isPrinterConnected)
    {
      bleService := service;
    }

    method TogglePrinterConnection(status: bool)
      modifies this
      ensures isPrinterConnected == status && bleService == old(bleService)
    {
      isPrinterConnected := status;
    }

    /** `generateReceiptData`: `sent` is the packet handed to the BLE write
        (`None` when the guard stops it) and `writeSucceeds` that write's outcome. */
    method GenerateReceiptData(title: seq<Byte>, items: seq<Item>, qr: seq<Byte>, timestamp: seq<Byte>,
                               writeSucceeds: bool)
      returns (result: seq<string>, sent: Option<seq<int>>)
      ensures sent.Some? <==> Ready()
      ensures sent.Some? ==> sent.value == Packet(title, items, qr, timestamp)
      ensures result == (if Ready() && writeSucceeds then ["success"] else [])
    {
      if !isPrinterConnected || !Truthy(bleService) {
        return [], None;
      }
      var data := INIT + CENTER + BOLD_ON + (title + [LF]) + BOLD_OFF + LINE + ItemsBytes(items);
      data := data + QR_MODEL + QR_SIZE + QR_ERROR_LEVEL;
      var packet := data + QrStore(qr) + QR_PRINT + LINE + (DATE_PREFIX + timestamp + [LF]) + LINE_FEED;
      sent := Some(packet);
      if writeSucceeds {
        result := ["success"];
      } else {
        result := [];
      }
    }
  }
}
