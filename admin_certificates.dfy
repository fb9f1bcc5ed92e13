/**
 * The admin certificates panel (`AdminCertificates`): the certificate form,
 * the save handler that numbers a new certificate after the existing ones,
 * the list sorted by order, and the up/down buttons that swap the orders of
 * two neighbours.
 *
 * The sorted list is a shallow copy: its elements are the store's own
 * certificate objects. A swap therefore writes into the store's list, at the
 * positions the sorting permutation maps the two sorted positions to.
 */
module AdminCertificates {
  import opened Wrappers
  import opened Types
  import opened Strings
  import Ordering
  import opened Remote
  import PortfolioStore
  import Toast

  /** `order || 0`. */
  function CertKey(c: Certificate): (k: int)
    ensures c.order.None? ==> k == 0
    ensures c.order.Some? ==> k == c.order.value
  {
    c.order.GetOr(0)
  }

  /** `sortedCerts`: the same certificates, in non-decreasing `order || 0`. */
  function SortedCerts(cs: seq<Certificate>): (r: seq<Certificate>)
    ensures |r| == |cs| && multiset(r) == multiset(cs)
    ensures Ordering.SortedBy(r, CertKey)
  {
    Ordering.Sort(cs, CertKey)
  }

  /** The form's state: text fields, the order, and the id of the certificate being edited, if any. */
  datatype CertForm = CertForm(
    id: Option<string>,
    title: string,
    issuer: string,
    date: string,
    imageUrl: string,
    description: string,
    link: string,
    order: int)

  /** The form opened on a certificate, or on nothing: empty texts and order 0, overridden by what the certificate has. */
  function InitCertForm(cert: Option<Certificate>): (f: CertForm)
    ensures cert.None? ==> f.id.None? && f.title == f.issuer == f.date == f.imageUrl == f.description == f.link == "" && f.order == 0
    ensures cert.Some? ==> f.id == Some(cert.value.id) && f.order == CertKey(cert.value)
    ensures cert.Some? ==> && f.title == cert.value.title && f.issuer == cert.value.issuer && f.date == cert.value.date
                           && f.imageUrl == cert.value.imageUrl && f.description == cert.value.description.GetOr("")
                           && f.link == cert.value.link.GetOr("")
  {
    match cert
    case None => CertForm(None, "", "", "", "", "", "", 0)
    case Some(c) => CertForm(Some(c.id), c.title, c.issuer, c.date, c.imageUrl, c.description.GetOr(""), c.link.GetOr(""), c.order.GetOr(0))
  }

  /** The form's submit: the form's id, or a generated `cert-<now>` when it has none. */
  function SubmitCert(form: CertForm, now: nat): (c: Certificate)
    ensures form.id.Some? && form.id.value != "" ==> c.id == form.id.value
    ensures form.id.None? || form.id.value == "" ==> c.id == "cert-" + NatToString(now)
    ensures c.order == Some(form.order)
    ensures c.title == form.title && c.issuer == form.issuer && c.date == form.date && c.imageUrl == form.imageUrl
    ensures c.description == Some(form.description) && c.link == Some(form.link)
  {
    Certificate(Or(form.id.GetOr(""), "cert-" + NatToString(now)), form.title, form.issuer, form.date, form.imageUrl,
                Some(form.description), Some(form.link), Some(form.order))
  }

  /** Submitting an unchanged form gives the certificate back, with its missing fields filled with the form's defaults. */
  lemma CertSubmitUnchanged(c: Certificate, now: nat)
    requires c.id != ""
    ensures SubmitCert(InitCertForm(Some(c)), now)
         == c.(description := Some(c.description.GetOr("")), link := Some(c.link.GetOr("")), order := Some(CertKey(c)))
  {
  }

  /** The `order` values at positions `i` and `j` exchanged; everything else as it was. */
  function SwapOrders(cs: seq<Certificate>, i: nat, j: nat): (r: seq<Certificate>)
    requires i < |cs| && j < |cs|
    ensures |r| == |cs|
    ensures r[i].order == cs[j].order && r[j].order == cs[i].order
    ensures forall k :: 0 <= k < |cs| ==> r[k] == cs[k].(order := r[k].order)
    ensures forall k :: 0 <= k < |cs| && k != i && k != j ==> r[k] == cs[k]
  {
    cs[i := cs[i].(order := cs[j].order)][j := cs[j].(order := cs[i].order)]
  }

  /** A swap neither creates nor loses an order value. */
  lemma SwapKeepsOrderValues(cs: seq<Certificate>, i: nat, j: nat)
    requires i < |cs| && j < |cs|
    ensures multiset(CertificateOrders(SwapOrders(cs, i, j))) == multiset(CertificateOrders(cs))
    ensures CertificateIds(SwapOrders(cs, i, j)) == CertificateIds(cs)
  {
    var os := CertificateOrders(cs);
    if i != j {
      assert CertificateOrders(SwapOrders(cs, i, j)) == os[i := os[j]][j := os[i]];
    } else {
      assert CertificateOrders(SwapOrders(cs, i, j)) == os;
    }
  }

  /** Two neighbours that share an order value swap nothing: the button writes the same orders back. */
  lemma EqualOrdersSwapNothing(cs: seq<Certificate>, i: nat, j: nat)
    requires i < |cs| && j < |cs| && cs[i].order == cs[j].order
    ensures SwapOrders(cs, i, j) == cs
  {
    assert forall k :: 0 <= k < |cs| ==> SwapOrders(cs, i, j)[k] == cs[k];
  }

  /**
   * Swapping through the shallow copy: writing the orders of sorted
   * positions `a` and `b` into the store's objects at `pi[a]` and `pi[b]`
   * leaves the copy holding exactly the sorted list with the two orders
   * swapped.
   */
  lemma SwapThroughCopy(cs: seq<Certificate>, a: nat, b: nat)
    requires a < |cs| && b < |cs|
    ensures var pi := Ordering.SortPermutation(cs, CertKey);
      var after := SwapOrders(cs, pi[a], pi[b]);
      forall k :: 0 <= k < |cs| ==> after[pi[k]] == SwapOrders(SortedCerts(cs), a, b)[k]
  {
    var pi := Ordering.SortPermutation(cs, CertKey);
    var sorted := SortedCerts(cs);
    var after := SwapOrders(cs, pi[a], pi[b]);
    var swapped := SwapOrders(sorted, a, b);
    forall k | 0 <= k < |cs|
      ensures after[pi[k]] == swapped[k]
    {
      assert sorted[k] == cs[pi[k]] && sorted[a] == cs[pi[a]] && sorted[b] == cs[pi[b]];
      if k != a && k != b {
        assert pi[k] != pi[a] && pi[k] != pi[b];
      } else if k == b {
        assert after[pi[b]].order == cs[pi[a]].order;
      } else {
        assert k == a;
        if a != b {
          assert pi[a] != pi[b];
        }
      }
    }
  }

  /**
   * A certificate numbered one past the count sorts after all the others
   * when their orders are at most the count, as they are when the orders
   * are 1..n.
   */
  lemma NewCertificateSortsLast(cs: seq<Certificate>, c: Certificate)
    requires forall k :: 0 <= k < |cs| ==> CertKey(cs[k]) <= |cs|
    ensures SortedCerts(cs + [c.(order := Some(|cs| + 1))]) == SortedCerts(cs) + [c.(order := Some(|cs| + 1))]
  {
    Ordering.SortAppendMax(cs, c.(order := Some(|cs| + 1)), CertKey);
  }

  class CertificatesPanel {
    var addingNew: bool
    var editing: Option<Certificate>

    constructor()
      ensures !addingNew && editing.None?
    {
      addingNew, editing := false, None;
    }

    /**
     * `handleSave`: a new certificate is numbered one past the current count
     * and added; an edited one is merged. Either way a toast says so and the
     * form closes.
     */
    method HandleSave(store: PortfolioStore.Store, toasts: Toast.ToastQueue, c: Certificate, now: nat)
      modifies this`addingNew, this`editing, store`log, toasts`toasts
      ensures old(addingNew) ==>
        && store.log == old(store.log) + [SetDoc(CertificatesColl, c.id, CertificateDoc(c.(order := Some(|store.certificates| + 1))))]
        && toasts.toasts == old(toasts.toasts) + Toast.NewToasts(toasts.provided, Success, "Certificate added!", now)
        && !addingNew && editing == old(editing)
      ensures !old(addingNew) ==>
        && store.log == old(store.log) + [MergeDoc(CertificatesColl, c.id, Record(CertificateDoc(c)))]
        && toasts.toasts == old(toasts.toasts) + Toast.NewToasts(toasts.provided, Success, "Certificate updated!", now)
        && !addingNew && editing.None?
    {
      if addingNew {
        var numbered := c.(order := Some(|store.certificates| + 1));
        store.AddCertificate(numbered);
        var _ := toasts.ShowToast(Success, "Certificate added!", now);
        addingNew := false;
      } else {
        store.UpdateCertificate(c.id, c);
        var _ := toasts.ShowToast(Success, "Certificate updated!", now);
        editing := None;
      }
    }

    /** The delete button: deletes the certificate and says "Deleted". */
    method HandleDelete(store: PortfolioStore.Store, toasts: Toast.ToastQueue, id: string, now: nat)
      modifies store`log, toasts`toasts
      ensures store.log == old(store.log) + [DeleteDoc(CertificatesColl, id)]
      ensures toasts.toasts == old(toasts.toasts) + Toast.NewToasts(toasts.provided, Success, "Deleted", now)
    {
      store.DeleteCertificate(id);
      var _ := toasts.ShowToast(Success, "Deleted", now);
    }

    /**
     * `moveCert(index, direction)`: with the neighbour out of range nothing
     * happens. Otherwise the two orders are swapped in the store's own
     * objects, every sorted certificate is written with its order until the
     * first failure, and "Order updated" is shown.
     */
    method MoveCert(store: PortfolioStore.Store, toasts: Toast.ToastQueue, index: int, direction: int, failAt: Option<nat>, now: nat)
      requires 0 <= index < |store.certificates|
      requires direction == -1 || direction == 1
      modifies store`certificates, store`log, toasts`toasts
      ensures var target := index + direction;
        if target < 0 || target >= |old(store.certificates)| then
          && store.certificates == old(store.certificates)
          && store.log == old(store.log) && toasts.toasts == old(toasts.toasts)
        else
          var pi := Ordering.SortPermutation(old(store.certificates), CertKey);
          && store.certificates == SwapOrders(old(store.certificates), pi[index], pi[target])
          && store.log == old(store.log)
             + Issued(CertificateOrderMerges(SwapOrders(SortedCerts(old(store.certificates)), index, target)), failAt)
          && toasts.toasts == old(toasts.toasts) + Toast.NewToasts(toasts.provided, Success, "Order updated", now)
    {
      var sorted := SortedCerts(store.certificates);
      var n := |sorted|;
      var target := index + direction;
      if target < 0 || target >= n {
        return;
      }
      var pi := Ordering.SortPermutation(store.certificates, CertKey);
      SwapThroughCopy(store.certificates, index, target);
      // Element k of the copy is the store's certificate pi[k]: the swap writes there.
      var temp := sorted[index].order;
      store.certificates := store.certificates[pi[index] := store.certificates[pi[index]].(order := sorted[target].order)];
      store.certificates := store.certificates[pi[target] := store.certificates[pi[target]].(order := temp)];
      var objects := store.certificates;
      var newCerts := seq(n, k requires 0 <= k < n => objects[pi[k]]);
      assert newCerts == SwapOrders(sorted, index, target);
      store.ReorderCertificates(newCerts, failAt);
      var _ := toasts.ShowToast(Success, "Order updated", now);
    }
  }
}
