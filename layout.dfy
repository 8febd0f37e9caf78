/** How the read routes lay out their multicall requests, and the windows the
    batch routes cut the result list back into. */
module Layout {
  import opened Common

  /** The calls for one address, one per getter, in getter order. */
  function ForAddress(a: Address, getters: seq<Getter>): (calls: seq<Call>)
    ensures |calls| == |getters|
    ensures forall g :: 0 <= g < |getters| ==> calls[g] == Call(a, getters[g])
  {
    seq(|getters|, g requires 0 <= g < |getters| => Call(a, getters[g]))
  }

  /** addresses.flatMap(address => [getter 0, getter 1, ...]): address-major. */
  function AddressMajor(addrs: seq<Address>, getters: seq<Getter>): seq<Call>
  {
    if |addrs| == 0 then [] else ForAddress(addrs[0], getters) + AddressMajor(addrs[1..], getters)
  }

  /** ...addresses.map(getter 0), ...addresses.map(getter 1), ...: group-major. */
  function GroupMajor(addrs: seq<Address>, getters: seq<Getter>): seq<Call>
  {
    if |getters| == 0 then []
    else seq(|addrs|, i requires 0 <= i < |addrs| => Call(addrs[i], getters[0]))
         + GroupMajor(addrs, getters[1..])
  }

  /** Call g of address i sits at index i * |getters| + g of the address-major list. */
  lemma {:induction false} AddressMajorAt(addrs: seq<Address>, getters: seq<Getter>, i: nat, g: nat)
    requires i < |addrs| && g < |getters|
    ensures |AddressMajor(addrs, getters)| == |addrs| * |getters|
    ensures i * |getters| + g < |addrs| * |getters|
    ensures AddressMajor(addrs, getters)[i * |getters| + g] == Call(addrs[i], getters[g])
  {
    var G := |getters|;
    AddressMajorLength(addrs[1..], getters);
    assert |addrs| * G == G + (|addrs| - 1) * G;
    if i > 0 {
      AddressMajorAt(addrs[1..], getters, i - 1, g);
      assert i * G + g == G + ((i - 1) * G + g);
    }
  }

  lemma {:induction false} AddressMajorLength(addrs: seq<Address>, getters: seq<Getter>)
    ensures |AddressMajor(addrs, getters)| == |addrs| * |getters|
  {
    if |addrs| > 0 {
      AddressMajorLength(addrs[1..], getters);
      assert |addrs| * |getters| == |getters| + (|addrs| - 1) * |getters|;
    }
  }

  /** Call g of address i sits at index g * |addrs| + i of the group-major list. */
  lemma {:induction false} GroupMajorAt(addrs: seq<Address>, getters: seq<Getter>, i: nat, g: nat)
    requires i < |addrs| && g < |getters|
    ensures |GroupMajor(addrs, getters)| == |getters| * |addrs|
    ensures g * |addrs| + i < |getters| * |addrs|
    ensures GroupMajor(addrs, getters)[g * |addrs| + i] == Call(addrs[i], getters[g])
  {
    var N := |addrs|;
    GroupMajorLength(addrs, getters[1..]);
    assert |getters| * N == N + (|getters| - 1) * N;
    if g > 0 {
      GroupMajorAt(addrs, getters[1..], i, g - 1);
      assert g * N + i == N + ((g - 1) * N + i);
    }
  }

  lemma {:induction false} GroupMajorLength(addrs: seq<Address>, getters: seq<Getter>)
    ensures |GroupMajor(addrs, getters)| == |getters| * |addrs|
  {
    if |getters| > 0 {
      GroupMajorLength(addrs, getters[1..]);
      assert |getters| * |addrs| == |addrs| + (|getters| - 1) * |addrs|;
    }
  }

  lemma RowFits(i: nat, count: nat, g: nat)
    requires i < count
    ensures 0 <= i * g && i * g + g <= count * g
  {
    assert i * g + g == (i + 1) * g;
  }

  /** A window of a multicall's results is the multicall of the calls in
      that window. */
  lemma SliceOfMulticall(chain: Chain, calls: seq<Call>, lo: nat, n: nat, want: seq<Call>)
    requires lo + n <= |calls| && |want| == n
    requires forall g :: 0 <= g < n ==> calls[lo + g] == want[g]
    ensures JsSlice(Multicall(chain, calls), lo, lo + n) == Multicall(chain, want)
  {
    var row := JsSlice(Multicall(chain, calls), lo, lo + n);
    forall g | 0 <= g < n ensures row[g] == Multicall(chain, want)[g] {
      assert row[g] == Multicall(chain, calls)[lo + g];
    }
  }

  /** Row i of the address-major results, the slice of width |getters| at
      i * |getters|, is the multicall of address i alone. */
  lemma AddressMajorRow(addrs: seq<Address>, getters: seq<Getter>, chain: Chain, i: nat)
    requires i < |addrs|
    ensures var res := Multicall(chain, AddressMajor(addrs, getters));
      JsSlice(res, i * |getters|, i * |getters| + |getters|) == Multicall(chain, ForAddress(addrs[i], getters))
  {
    var G := |getters|;
    var calls := AddressMajor(addrs, getters);
    AddressMajorLength(addrs, getters);
    RowFits(i, |addrs|, G);
    var lo: nat := i * G;
    var want := ForAddress(addrs[i], getters);
    forall g | 0 <= g < G ensures calls[lo + g] == want[g] {
      AddressMajorAt(addrs, getters, i, g);
    }
    SliceOfMulticall(chain, calls, lo, G, want);
  }

  /** Reading an address-major list at g * N + i, the group-major position,
      finds the call issued for address i and getter g for every i and g exactly
      when there is one address. With two or more, position 1 (row 1, getter 0)
      holds the second call of address 0. */
  lemma AddressMajorReadGroupMajor(addrs: seq<Address>, getters: seq<Getter>)
    requires |addrs| >= 1 && |getters| >= 2 && getters[0] != getters[1]
    ensures (forall i: nat, g: nat | i < |addrs| && g < |getters| ::
               g * |addrs| + i < |AddressMajor(addrs, getters)|
               && AddressMajor(addrs, getters)[g * |addrs| + i] == Call(addrs[i], getters[g]))
            <==> |addrs| == 1
  {
    var N, G := |addrs|, |getters|;
    AddressMajorLength(addrs, getters);
    if N == 1 {
      forall i: nat, g: nat | i < N && g < G
        ensures g * N + i < |AddressMajor(addrs, getters)|
        ensures AddressMajor(addrs, getters)[g * N + i] == Call(addrs[i], getters[g])
      {
        AddressMajorAt(addrs, getters, 0, g);
      }
    } else {
      AddressMajorAt(addrs, getters, 0, 1);
      assert 0 * N + 1 == 0 * G + 1;
      assert AddressMajor(addrs, getters)[0 * N + 1] != Call(addrs[1], getters[0]);
    }
  }

  // ---------- cutting the results back into groups ----------

  /** The k-th window of width n: res.slice(k * n, (k + 1) * n). */
  function Window<T>(res: seq<T>, k: nat, n: nat): seq<T>
  {
    JsSlice(res, k * n, k * n + n)
  }

  /** Windows 0..k-1 laid end to end are the first k * n entries: consecutive
      windows are disjoint and, for k * n == |res|, cover res. */
  lemma {:induction false} WindowsCover<T>(res: seq<T>, n: nat, k: nat)
    requires k * n <= |res|
    ensures Windows(res, n, k) == res[..k * n]
  {
    if k > 0 {
      assert (k - 1) * n + n == k * n;
      WindowsCover(res, n, k - 1);
      assert res[..k * n] == res[..(k - 1) * n] + res[(k - 1) * n..k * n];
    }
  }

  function Windows<T>(res: seq<T>, n: nat, k: nat): seq<T>
  {
    if k == 0 then [] else Windows(res, n, k - 1) + Window(res, k - 1, n)
  }

  /** Entry i of window k is res[k * n + i]. */
  lemma WindowAt<T>(res: seq<T>, k: nat, n: nat, i: nat)
    requires i < n && k * n + n <= |res|
    ensures i < |Window(res, k, n)| && Window(res, k, n)[i] == res[k * n + i]
  {
  }

  /** safe(arr, idx, fallback) before the fallback is applied: the entry, or a
      failure when it is absent. */
  function Safe(arr: seq<CallResult>, idx: nat): (r: CallResult)
    ensures r.Success? <==> idx < |arr| && arr[idx].Success?
    ensures r.Success? ==> r == arr[idx]
  {
    if idx < |arr| then arr[idx] else Failure
  }

  /** Entry idx of the group w, read with safe, is the result of `getter` on
      address idx. */
  predicate GroupOf(addresses: seq<Address>, chain: Chain, w: seq<CallResult>, getter: Getter)
  {
    forall idx: nat {:trigger Safe(w, idx)} | idx < |addresses| :: Safe(w, idx) == chain(Call(addresses[idx], getter))
  }

  /** The results of a group-major request list: |getters| * N entries, window
      g of width N the group of getters[g]. */
  predicate GroupsMatch(addresses: seq<Address>, getters: seq<Getter>, chain: Chain, res: seq<CallResult>)
  {
    |res| == |getters| * |addresses|
    && forall g: nat {:trigger Window(res, g, |addresses|)} | g < |getters| ::
         GroupOf(addresses, chain, Window(res, g, |addresses|), getters[g])
  }

  lemma GroupFits(g: nat, count: nat, n: nat)
    requires g < count
    ensures g * n + n <= count * n
  {
    assert g * n + n == (g + 1) * n;
  }

  /** Multicall over the group-major list: window g of the results is the
      group of getters[g]. */
  lemma MulticallGroupMajor(addresses: seq<Address>, getters: seq<Getter>, chain: Chain)
    ensures GroupsMatch(addresses, getters, chain, Multicall(chain, GroupMajor(addresses, getters)))
  {
    var res := Multicall(chain, GroupMajor(addresses, getters));
    var n := |addresses|;
    GroupMajorLength(addresses, getters);
    forall g: nat | g < |getters| ensures GroupOf(addresses, chain, Window(res, g, n), getters[g]) {
      GroupFits(g, |getters|, n);
      forall idx: nat | idx < n ensures Safe(Window(res, g, n), idx) == chain(Call(addresses[idx], getters[g])) {
        WindowAt(res, g, n, idx);
        GroupMajorAt(addresses, getters, idx, g);
      }
    }
  }

  /** res.slice(lo, lo + n) with lo == g * n, the read position after g
      slices of n, is the group of getters[g]. */
  lemma SliceIsGroup(addresses: seq<Address>, getters: seq<Getter>, chain: Chain, res: seq<CallResult>, n: nat, g: nat, lo: nat)
    requires GroupsMatch(addresses, getters, chain, res)
    requires n == |addresses| && g < |getters| && lo == g * n
    ensures GroupOf(addresses, chain, JsSlice(res, lo, lo + n), getters[g])
  {
    assert GroupOf(addresses, chain, Window(res, g, n), getters[g]);
  }
}
