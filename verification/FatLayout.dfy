/** Where the FAT copies and the data clusters of a volume lie on the device. */
module FatLayout {
  import opened Machine

  /** Byte addresses of a mounted volume. `clusterAddr[c]` is the first byte of cluster `c` (entries
      0 and 1 are not used), `fatAddr[i]` the first byte of FAT copy `i`, `entries` the number of
      16-bit entries in one copy. */
  datatype Layout = Layout(bpc: nat, clusters: nat, entries: nat,
                           clusterAddr: seq<nat>, fatAddr: seq<nat>, size: nat)
  {
    /** Clusters are aligned, lie on the device and share no byte. */
    ghost predicate ClustersPlaced() {
      && |clusterAddr| == clusters
      && (forall c | 2 <= c < clusters ::
            clusterAddr[c] % SECTOR == 0 && clusterAddr[c] + bpc <= size)
      && (forall c, d | 2 <= c < d < clusters :: clusterAddr[c] + bpc <= clusterAddr[d])
    }

    /** So are FAT copies. */
    ghost predicate TablesPlaced() {
      && 0 < |fatAddr|
      && (forall i | 0 <= i < |fatAddr| ::
            fatAddr[i] % SECTOR == 0 && fatAddr[i] + 2 * entries <= size)
      && (forall i, j | 0 <= i < j < |fatAddr| :: fatAddr[i] + 2 * entries <= fatAddr[j])
    }

    /** Nothing overlaps, everything is sector aligned and no 16- or 32-bit quantity wraps. */
    ghost predicate Sound() {
      && 0 < bpc && bpc % SECTOR == 0
      && 2 <= clusters <= entries && clusters <= 0xFFF6 && entries % 256 == 0
      && size <= TWO32 && MaxFileSize() + bpc <= TWO32
      && ClustersPlaced()
      && TablesPlaced()
      && (forall i, c | 0 <= i < |fatAddr| && 2 <= c < clusters ::
            fatAddr[i] + 2 * entries <= clusterAddr[c])
    }

    function MaxFileSize(): nat {
      if clusters < 3 then 0 else (clusters - 2) * bpc
    }
  }

  /** Where the partition starts (`baseAddr`). */
  const BASE: nat := 512_000

  /** The fields of the BIOS parameter block that `fat_get_info` reads, for 512-byte sectors. */
  datatype Bpb = Bpb(sectorsPerCluster: Byte, reserved: U16, tables: Byte,
                     sectorsPerFat: U16, rootEntries: U16, sectors: U32)
  {
    function RootSectors(): nat { (rootEntries * 32 + 511) / 512 }

    function RootSector(): nat { reserved + tables * sectorsPerFat }

    function FirstDataSector(): nat { RootSector() + RootSectors() }

    function BytesPerCluster(): nat { sectorsPerCluster * SECTOR }

    /** The cluster count, clamped to what one FAT copy can describe. */
    function Clusters(): nat
      requires Accepted()
    {
      var clusters := (sectors - FirstDataSector()) / sectorsPerCluster + 2;
      var fatEntries := sectorsPerFat * SECTOR / 2;
      if clusters > fatEntries then fatEntries else clusters
    }

    /** The sanity checks made before the block is used. */
    predicate Accepted() {
      && 0 < sectorsPerCluster && 0 < tables && 0 < sectorsPerFat
      && FirstDataSector() < sectors
    }

    /** The first byte behind the last cluster. */
    function End(): (a: nat)
      requires Accepted() && 2 <= Clusters()
    {
      BASE + (FirstDataSector() + (Clusters() - 2) * sectorsPerCluster) * SECTOR
    }

    function ClusterAddress(c: nat): (a: nat)
      requires Accepted()
    {
      BASE + ((if c < 2 then 0 else c - 2) * sectorsPerCluster + FirstDataSector()) * SECTOR
    }

    function TableAddress(i: nat): (a: nat) {
      BASE + reserved * SECTOR + i * sectorsPerFat * SECTOR
    }

    function ToLayout(): (l: Layout)
      requires Accepted() && 2 <= Clusters()
    {
      Layout(BytesPerCluster(), Clusters(), sectorsPerFat * SECTOR / 2,
             seq(Clusters(), c requires 0 <= c => ClusterAddress(c)),
             seq(tables, i requires 0 <= i => TableAddress(i)),
             End())
    }
  }

  lemma MulLe(a: nat, b: nat, k: nat)
    requires a <= b
    ensures a * k <= b * k
  {
  }

  lemma MulStep(a: nat, b: nat, k: nat)
    requires a < b
    ensures a * k + k <= b * k
  {
    MulLe(a + 1, b, k);
  }

  lemma AlignedSum(base: nat, q: nat)
    requires base % SECTOR == 0
    ensures (base + q * SECTOR) % SECTOR == 0
  {
  }

  /** A cluster lies inside the data area. */
  lemma ClusterInVolume(b: Bpb, c: nat)
    requires b.Accepted() && 2 <= c < b.Clusters()
    ensures BASE + b.RootSector() * SECTOR <= b.ClusterAddress(c)
    ensures b.ClusterAddress(c) + b.BytesPerCluster() <= b.End()
  {
    hide Bpb.RootSectors, Bpb.RootSector, Bpb.Clusters;
    var first, spc := b.FirstDataSector(), b.sectorsPerCluster;
    MulStep(c - 2, b.Clusters() - 2, spc);
    var q := (c - 2) * spc;
    assert b.ClusterAddress(c) == BASE + (q + first) * SECTOR;
  }

  lemma AddressesAligned(b: Bpb, c: nat, i: nat)
    requires b.Accepted()
    ensures b.ClusterAddress(c) % SECTOR == 0 && b.TableAddress(i) % SECTOR == 0
  {
    var k := if c < 2 then 0 else c - 2;
    AlignedSum(BASE, k * b.sectorsPerCluster + b.FirstDataSector());
    AlignedSum(BASE, b.reserved + i * b.sectorsPerFat);
    assert b.TableAddress(i) == BASE + (b.reserved + i * b.sectorsPerFat) * SECTOR;
  }

  lemma ClustersApart(b: Bpb, c: nat, d: nat)
    requires b.Accepted() && 2 <= c < d
    ensures b.ClusterAddress(c) + b.BytesPerCluster() <= b.ClusterAddress(d)
  {
    MulStep(c - 2, d - 2, b.sectorsPerCluster);
  }

  lemma TableInVolume(b: Bpb, i: nat)
    requires b.Accepted() && i < b.tables
    ensures b.TableAddress(i) + b.sectorsPerFat * SECTOR <= BASE + b.RootSector() * SECTOR
  {
    MulStep(i, b.tables, b.sectorsPerFat);
  }

  lemma TablesApart(b: Bpb, i: nat, j: nat)
    requires i < j
    ensures b.TableAddress(i) + b.sectorsPerFat * SECTOR <= b.TableAddress(j)
  {
    MulStep(i, j, b.sectorsPerFat);
  }

  lemma FileSizeBounded(b: Bpb)
    requires b.Accepted() && 2 <= b.Clusters()
    ensures b.ToLayout().MaxFileSize() + b.BytesPerCluster() <= b.End()
  {
    hide Bpb.RootSectors, Bpb.RootSector, Bpb.Clusters;
    var n, bpc := b.Clusters(), b.BytesPerCluster();
    assert (n - 2) * bpc == (n - 2) * b.sectorsPerCluster * SECTOR;
  }

  lemma ClustersArePlaced(b: Bpb)
    requires b.Accepted() && 2 <= b.Clusters()
    ensures b.ToLayout().ClustersPlaced()
  {
    hide Bpb.RootSectors, Bpb.RootSector, Bpb.Clusters, Bpb.ClusterAddress, Bpb.End;
    forall c | 2 <= c < b.Clusters()
      ensures b.ClusterAddress(c) % SECTOR == 0
      ensures b.ClusterAddress(c) + b.BytesPerCluster() <= b.End()
    {
      ClusterInVolume(b, c);
      AddressesAligned(b, c, 0);
    }
    forall c, d | 2 <= c < d
      ensures b.ClusterAddress(c) + b.BytesPerCluster() <= b.ClusterAddress(d)
    {
      ClustersApart(b, c, d);
    }
  }

  lemma EndBehindTables(b: Bpb)
    requires b.Accepted() && 2 <= b.Clusters()
    ensures BASE + b.RootSector() * SECTOR <= b.End()
  {
    hide Bpb.RootSectors, Bpb.RootSector, Bpb.Clusters;
    MulLe(0, b.Clusters() - 2, b.sectorsPerCluster);
  }

  lemma TablesArePlaced(b: Bpb)
    requires b.Accepted() && 2 <= b.Clusters()
    ensures b.ToLayout().TablesPlaced()
  {
    hide Bpb.RootSectors, Bpb.RootSector, Bpb.FirstDataSector, Bpb.Clusters, Bpb.ClusterAddress, Bpb.TableAddress, Bpb.End;
    EndBehindTables(b);
    HalfSectors(b.sectorsPerFat);
    assert 2 * b.ToLayout().entries == b.sectorsPerFat * SECTOR;
    forall i | 0 <= i < b.tables
      ensures b.TableAddress(i) % SECTOR == 0
      ensures b.TableAddress(i) + b.sectorsPerFat * SECTOR <= b.End()
    {
      TableInVolume(b, i);
      AddressesAligned(b, 0, i);
    }
    forall i, j | 0 <= i < j
      ensures b.TableAddress(i) + b.sectorsPerFat * SECTOR <= b.TableAddress(j)
    {
      TablesApart(b, i, j);
    }
  }

  lemma TableBelowCluster(b: Bpb, i: nat, c: nat)
    requires b.Accepted() && i < b.tables && 2 <= c < b.Clusters()
    ensures b.TableAddress(i) + b.sectorsPerFat * SECTOR <= b.ClusterAddress(c)
  {
    TableInVolume(b, i);
    ClusterInVolume(b, c);
  }

  lemma DivNonNegative(a: nat, k: nat)
    requires 0 < k
    ensures 0 <= a / k
  {
  }

  lemma HalfSectors(k: nat)
    ensures k * SECTOR / 2 == k * 256 && k * 256 % 256 == 0
  {
  }

  lemma ClustersAtLeastTwo(b: Bpb)
    requires b.Accepted()
    ensures 2 <= b.Clusters() <= b.sectorsPerFat * SECTOR / 2
  {
    hide Bpb.RootSectors, Bpb.RootSector;
    DivNonNegative(b.sectors - b.FirstDataSector(), b.sectorsPerCluster);
    HalfSectors(b.sectorsPerFat);
  }

  lemma CountsSound(b: Bpb)
    requires b.Accepted() && 2 <= b.Clusters()
    ensures var l := b.ToLayout();
            && 0 < l.bpc && l.bpc % SECTOR == 0 && 2 * l.entries == b.sectorsPerFat * SECTOR
            && 2 <= l.clusters <= l.entries && l.entries % 256 == 0
  {
    hide Bpb.RootSectors, Bpb.RootSector, Bpb.Clusters;
    ClustersAtLeastTwo(b);
    HalfSectors(b.sectorsPerFat);
    AlignedSum(0, b.sectorsPerCluster);
  }

  /** What the parameter block prescribes, in bytes: the FAT copies adjoin behind the reserved sectors, the root
      directory of 32-byte entries follows the last copy, the first cluster starts at the first sector behind it, the
      clusters adjoin, the last one ends inside the partition, and one more would end behind it or have no FAT entry. */
  ghost predicate Prescribed(b: Bpb, l: Layout) {
    var tablesEnd := BASE + SECTOR * (b.reserved + b.tables * b.sectorsPerFat);
    var rootEnd := tablesEnd + 32 * b.rootEntries;
    var data := l.size - (l.clusters - 2) * l.bpc;
    && l.bpc == b.sectorsPerCluster * SECTOR && 2 * l.entries == b.sectorsPerFat * SECTOR
    && |l.fatAddr| == b.tables && 0 < b.tables && l.fatAddr[0] == BASE + b.reserved * SECTOR
    && (forall i | 0 <= i < b.tables - 1 :: l.fatAddr[i + 1] == l.fatAddr[i] + 2 * l.entries)
    && l.fatAddr[b.tables - 1] + 2 * l.entries == tablesEnd
    && data % SECTOR == 0 && rootEnd <= data < rootEnd + SECTOR
    && |l.clusterAddr| == l.clusters && (2 < l.clusters ==> l.clusterAddr[2] == data)
    && (forall c | 2 <= c < l.clusters - 1 :: l.clusterAddr[c + 1] == l.clusterAddr[c] + l.bpc)
    && (forall c | 2 <= c < l.clusters :: rootEnd <= l.clusterAddr[c])
    && (2 < l.clusters ==> l.clusterAddr[l.clusters - 1] + l.bpc == l.size)
    && l.size <= BASE + b.sectors * SECTOR
    && (l.clusters == l.entries || BASE + b.sectors * SECTOR < l.size + l.bpc)
  }

  lemma RootSize(n: nat)
    ensures var k := (n * 32 + 511) / 512; 32 * n <= k * SECTOR < 32 * n + SECTOR
  {
  }

  /** A block is accepted exactly if no divisor is zero and a sector remains behind the root directory. */
  lemma AcceptedIff(b: Bpb)
    ensures b.Accepted() <==>
      && b.sectorsPerCluster != 0 && b.tables != 0 && b.sectorsPerFat != 0
      && (b.reserved + b.tables * b.sectorsPerFat) * SECTOR + 32 * b.rootEntries + SECTOR <= b.sectors * SECTOR
  {
    RootSize(b.rootEntries);
  }

  lemma DivStep(a: nat, k: nat)
    requires 0 < k
    ensures a / k * k <= a < (a / k + 1) * k
  {
  }

  /** The clusters fill the data area as far as whole clusters and the FAT copy reach. */
  lemma ClustersFill(b: Bpb)
    requires b.Accepted()
    ensures var n := b.Clusters() - 2;
            && n >= 0 && b.FirstDataSector() + n * b.sectorsPerCluster <= b.sectors
            && (b.Clusters() == b.sectorsPerFat * SECTOR / 2
                || b.sectors < b.FirstDataSector() + (n + 1) * b.sectorsPerCluster)
  {
    hide Bpb.FirstDataSector;
    ClustersAtLeastTwo(b);
    var room := b.sectors - b.FirstDataSector();
    DivStep(room, b.sectorsPerCluster);
    MulLe(b.Clusters() - 2, room / b.sectorsPerCluster, b.sectorsPerCluster);
  }

  lemma ClusterFollows(b: Bpb, c: nat)
    requires b.Accepted() && 2 <= c
    ensures b.ClusterAddress(c + 1) == b.ClusterAddress(c) + b.BytesPerCluster()
  {
    assert (c + 1 - 2) * b.sectorsPerCluster == (c - 2) * b.sectorsPerCluster + b.sectorsPerCluster;
  }

  lemma TableFollows(b: Bpb, i: nat)
    ensures b.TableAddress(i + 1) == b.TableAddress(i) + b.sectorsPerFat * SECTOR
  {
    assert (i + 1) * b.sectorsPerFat == i * b.sectorsPerFat + b.sectorsPerFat;
  }

  /** The clusters of the data area, counted back from its end. */
  lemma DataStart(b: Bpb)
    requires b.Accepted() && 2 <= b.Clusters()
    ensures b.End() - (b.Clusters() - 2) * b.BytesPerCluster() == BASE + b.FirstDataSector() * SECTOR == b.ClusterAddress(2)
    ensures 2 < b.Clusters() ==> b.ClusterAddress(b.Clusters() - 1) + b.BytesPerCluster() == b.End()
    ensures forall c | 2 <= c < b.Clusters() :: b.ClusterAddress(2) <= b.ClusterAddress(c)
  {
    hide Bpb.Clusters, Bpb.FirstDataSector;
    var spc, n := b.sectorsPerCluster, b.Clusters() - 2;
    assert n * spc * SECTOR == n * (spc * SECTOR);
    assert n > 0 ==> (n - 1) * spc + spc == n * spc;
    forall c | 2 <= c < b.Clusters() ensures b.ClusterAddress(2) <= b.ClusterAddress(c) {
      MulLe(0, c - 2, spc);
    }
  }

  lemma LargestFile(b: Bpb)
    requires b.Accepted()
    ensures 2 <= b.Clusters() && b.ToLayout().MaxFileSize() == b.End() - b.ClusterAddress(2)
  {
    ClustersAtLeastTwo(b);
    DataStart(b);
    hide Bpb.Clusters, Bpb.End, Bpb.ClusterAddress, Bpb.FirstDataSector;
    assert b.Clusters() == 2 ==> (b.Clusters() - 2) * b.BytesPerCluster() == 0;
  }

  lemma TablesEnd(b: Bpb)
    requires b.Accepted()
    ensures b.TableAddress(0) == BASE + b.reserved * SECTOR
    ensures b.TableAddress(b.tables) == BASE + SECTOR * (b.reserved + b.tables * b.sectorsPerFat)
  {
    assert b.tables * b.sectorsPerFat * SECTOR == SECTOR * (b.tables * b.sectorsPerFat);
  }

  /** The clusters end inside the partition, and there is no room, or no FAT entry, for another. */
  lemma EndFits(b: Bpb)
    requires b.Accepted() && 2 <= b.Clusters()
    ensures b.End() <= BASE + b.sectors * SECTOR
    ensures b.Clusters() == b.sectorsPerFat * SECTOR / 2 || BASE + b.sectors * SECTOR < b.End() + b.BytesPerCluster()
  {
    ClustersFill(b);
    hide Bpb.Clusters, Bpb.FirstDataSector;
    var n, spc := b.Clusters() - 2, b.sectorsPerCluster;
    assert (n + 1) * spc == n * spc + spc;
  }

  /** The data area starts at the first sector behind the root directory. */
  lemma DataBehindRoot(b: Bpb)
    requires b.Accepted()
    ensures var rootEnd := BASE + SECTOR * (b.reserved + b.tables * b.sectorsPerFat) + 32 * b.rootEntries;
            && b.ClusterAddress(2) % SECTOR == 0 && rootEnd <= b.ClusterAddress(2) < rootEnd + SECTOR
  {
    RootSize(b.rootEntries);
    AddressesAligned(b, 2, 0);
    hide Bpb.Clusters;
    assert b.ClusterAddress(2) == BASE + SECTOR * (b.reserved + b.tables * b.sectorsPerFat) + b.RootSectors() * SECTOR;
  }

  lemma LayoutPrescribed(b: Bpb)
    requires b.Accepted() && 2 <= b.Clusters()
    ensures Prescribed(b, b.ToLayout())
  {
    hide Bpb.Clusters, Bpb.ClusterAddress, Bpb.TableAddress, Bpb.End, Bpb.RootSectors, Bpb.RootSector;
    var l := b.ToLayout();
    CountsSound(b);
    EndFits(b);
    DataBehindRoot(b);
    DataStart(b);
    TablesEnd(b);
    forall i | 0 <= i < b.tables ensures b.TableAddress(i + 1) == b.TableAddress(i) + 2 * l.entries {
      TableFollows(b, i);
    }
    forall c | 2 <= c ensures b.ClusterAddress(c + 1) == b.ClusterAddress(c) + l.bpc {
      ClusterFollows(b, c);
    }
  }

  /** A volume that `fat_get_info` accepts has a sound layout if and only if it is FAT16 and its clusters lie below
      4 GB: then no two clusters, no two FAT copies and no FAT copy and cluster share a byte. Sound or not, it lies
      where the parameter block prescribes, and the largest file is as long as its clusters together. */
  lemma LayoutSound(b: Bpb)
    requires b.Accepted()
    ensures 2 <= b.Clusters()
    ensures b.ToLayout().Sound() <==> b.Clusters() <= 0xFFF6 && b.End() <= TWO32
    ensures Prescribed(b, b.ToLayout()) && b.ToLayout().MaxFileSize() == b.End() - b.ClusterAddress(2)
  {
    LargestFile(b);
    hide Bpb.RootSectors, Bpb.RootSector, Bpb.Clusters, Bpb.ClusterAddress, Bpb.TableAddress, Bpb.End, Prescribed;
    ClustersAtLeastTwo(b);
    LayoutPrescribed(b);
    FileSizeBounded(b);
    ClustersArePlaced(b);
    TablesArePlaced(b);
    CountsSound(b);
    forall i, c | 0 <= i < b.tables && 2 <= c < b.Clusters()
      ensures b.TableAddress(i) + b.sectorsPerFat * SECTOR <= b.ClusterAddress(c)
    {
      TableBelowCluster(b, i, c);
    }
  }
}
