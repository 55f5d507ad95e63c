/** Offsets of blocks, pages and segments, and the size classes. */
module Addresses {

  const PAGE_SIZE: nat := 0x1_0000            // 2^16
  const SEGMENT_SIZE: nat := 0x400_0000       // 2^26
  const SEGMENTS_AREA_START: nat := 0x800_0000 // 2^27
  const PAGES_PER_SEGMENT: nat := 1024
  const CXL_BIN_SIZE: nat := 66
  const QUEUE_BYTES: nat := 192               // of cxl_message_queue_t, aligned to 64

  /** The header of segment i. */
  function SegmentAt(i: nat): nat {
    SEGMENTS_AREA_START + i * SEGMENT_SIZE
  }

  /** `cxl_ptr_segment`: mask off the low bits. */
  function PtrSegment(offset: nat): nat {
    offset - offset % SEGMENT_SIZE
  }

  /** `cxl_segment_page_of`: the index of the page header. */
  function PageIndex(segment: nat, offset: nat): nat
    requires segment <= offset
  {
    (offset - segment) / PAGE_SIZE
  }

  /** `cxl_page_start` and `cxl_page_block_at`. */
  function BlockOffset(segment: nat, page: nat, size: nat, k: nat): nat {
    segment + page * PAGE_SIZE + k * size
  }

  /** `cxl_ptr_page`, with pages numbered through all segments. */
  function PageOf(b: nat): nat {
    b / PAGE_SIZE
  }

  /** The k-th block of a page so numbered. */
  function BlockAt(p: nat, size: nat, k: nat): nat {
    p * PAGE_SIZE + k * size
  }

  ghost predicate IsBlock(page: nat, size: nat, k: nat) {
    page < PAGES_PER_SEGMENT && 0 < size && k < PAGE_SIZE / size
  }

  lemma BlockFits(size: nat, k: nat)
    requires 0 < size && k < PAGE_SIZE / size
    ensures k * size + size <= PAGE_SIZE
  {
    assert (k + 1) * size <= PAGE_SIZE / size * size;
    assert (k + 1) * size == k * size + size;
  }

  /** From any byte of a block one gets back to its own segment and page. */
  lemma RoundTrip(i: nat, page: nat, size: nat, k: nat, byte: nat)
    requires IsBlock(page, size, k) && byte < size
    ensures var p := BlockOffset(SegmentAt(i), page, size, k) + byte;
            && PtrSegment(p) == SegmentAt(i) && PageIndex(SegmentAt(i), p) == page
            && PageOf(p) == SegmentAt(i) / PAGE_SIZE + page
            && BlockOffset(SegmentAt(i), page, size, k) == BlockAt(PageOf(p), size, k)
  {
    BlockFits(size, k);
    var inPage := k * size + byte;
    assert page * PAGE_SIZE + inPage < SEGMENT_SIZE;
  }

  /** Blocks that differ in segment, page or index do not overlap. */
  lemma NoOverlap(i: nat, page: nat, size: nat, k: nat, byte: nat, i': nat, page': nat, size': nat, k': nat, byte': nat)
    requires IsBlock(page, size, k) && byte < size && IsBlock(page', size', k') && byte' < size'
    requires BlockOffset(SegmentAt(i), page, size, k) + byte == BlockOffset(SegmentAt(i'), page', size', k') + byte'
    ensures i == i' && page == page'
    ensures size == size' ==> k == k' && byte == byte'
  {
    RoundTrip(i, page, size, k, byte);
    RoundTrip(i', page', size', k', byte');
    assert SegmentAt(i) == SegmentAt(i');
    if size == size' {
      SameIndex(size, k, byte, k', byte');
    }
  }

  lemma SameIndex(size: nat, k: nat, byte: nat, k': nat, byte': nat)
    requires k * size + byte == k' * size + byte' && byte < size && byte' < size
    ensures k == k' && byte == byte'
  {
    Later(size, k, k');
    Later(size, k', k);
  }

  lemma Later(size: nat, k: nat, k': nat)
    ensures k < k' ==> k * size + size <= k' * size
  {
    if k < k' {
      assert k' * size == (k + 1) * size + (k' - k - 1) * size;
      assert (k' - k - 1) * size >= 0;
      assert (k + 1) * size == k * size + size;
    }
  }

  /** `cxl_page_queue`: the size class for a request. */
  function Bin(special: bool, size: nat): nat
    requires size > 0
  {
    if special && size == 16 then 0
    else if special && size == QUEUE_BYTES then 1
    else (size - 1) / 16 + 2
  }

  /** Block sizes set up by `thread_init`. */
  function BlockSize(bin: nat): nat
    requires bin < CXL_BIN_SIZE
  {
    if bin == 0 then 16 else if bin == 1 then 16 * ((QUEUE_BYTES - 1) / 16) + 16 else 16 * (bin - 1)
  }

  /** Requests of up to 1024 bytes, and no others, have a size class; its blocks hold the
      request and are the smallest multiple of 16 that does. */
  lemma BinHolds(size: nat)
    requires size > 0
    ensures Bin(false, size) < CXL_BIN_SIZE <==> size <= 1024
    ensures Bin(false, size) < CXL_BIN_SIZE ==> size <= BlockSize(Bin(false, size)) < size + 16
  {
  }

  /** A block size finds its way back to the queue it came from: always for object pages, and
      for special pages exactly with the sizes of roots and of message queues, or sizes that
      round up to neither. */
  lemma SameBinOnFree(special: bool, size: nat)
    requires size > 0 && Bin(special, size) < CXL_BIN_SIZE
    ensures BlockSize(Bin(special, size)) > 0
    ensures Bin(special, BlockSize(Bin(special, size))) == Bin(special, size)
            <==>
            !special || size == 16 || size == QUEUE_BYTES || (size > 16 && !(QUEUE_BYTES - 16 < size < QUEUE_BYTES))
  {
  }
}
