/**
 * The page's mutable state and its handlers: the module-level `db` record,
 * its copy in local storage, the active tab and what the main area shows.
 */
module Store {
  import opened LedgerTypes
  import opened Aggregator
  import opened LedgerOps
  import opened Views

  class Store {
    var transactions: seq<Transaction>
    var settings: Settings
    /** The local-storage entry `ferrariManauaraDB`, already parsed; `None` when absent. */
    var stored: Option<Db>
    /** How many times the page has written that entry. */
    ghost var writes: nat
    /** The `data-tab` of the highlighted navigation tab. */
    var activeTab: string
    /** What the main area currently shows. */
    var view: View

    function Snapshot(): Db
      reads this`transactions, this`settings
    {
      Db(transactions, settings)
    }

    /** The main area shows the active tab rendered from the current ledger. */
    ghost predicate Synced()
      reads this`view, this`activeTab, this`transactions
    {
      view == RenderContent(activeTab, transactions)
    }

    /** Identifiers are unique and categories are set exactly on expenses. */
    ghost predicate LedgerInvariant()
      reads this`transactions
    {
      UniqueIds(transactions) && AllConsistent(transactions)
    }

    /**
     * Page start-up with `storage` as the local-storage entry: the initial
     * empty `db`, then `loadData()`, then `switchTab('dashboard')`.
     */
    constructor (storage: Option<Db>)
      ensures storage.Some? ==> Snapshot() == storage.value && stored == storage && writes == 0
      ensures storage.None? ==> && Snapshot() == Db(SeedAsWritten, DefaultSettings)
                                && stored == Some(Snapshot())
                                && writes == 1
      ensures activeTab == "dashboard" && Synced()
    {
      transactions := [];
      settings := DefaultSettings;
      stored := storage;
      writes := 0;
      activeTab := "dashboard";
      view := SettingsView;
      new;
      LoadData();
      // switchTab('dashboard'): the dashboard tab is already the highlighted one
      Refresh();
    }

    /** `saveData()`: the stored entry becomes a copy of `db`. */
    method SaveData()
      modifies this`stored, this`writes
      ensures stored == Some(Snapshot()) && writes == old(writes) + 1
    {
      stored := Some(Snapshot());
      writes := writes + 1;
    }

    /**
     * `loadData()`: the stored document when there is one; otherwise the seed
     * ledger with the default settings, written back at once.
     */
    method LoadData()
      modifies this`transactions, this`settings, this`stored, this`writes
      ensures old(stored).Some? ==> Snapshot() == old(stored).value && stored == old(stored) && writes == old(writes)
      ensures old(stored).None? ==> && Snapshot() == Db(SeedAsWritten, DefaultSettings)
                                    && stored == Some(Snapshot())
                                    && writes == old(writes) + 1
    {
      if stored.Some? {
        transactions := stored.value.transactions;
        settings := stored.value.settings;
      } else {
        transactions := SeedAsWritten;
        settings := DefaultSettings;
        SaveData();
      }
    }

    /** `renderContent(activeTab)`: the main area shows the active tab from the current ledger. */
    method Refresh()
      modifies this`view
      ensures Synced()
    {
      view := RenderContent(activeTab, transactions);
    }

    /** `switchTab(tabId)`: highlight the tab and render it; the ledger is only read. */
    method SwitchTab(tabId: string)
      modifies this`activeTab, this`view
      ensures activeTab == tabId && Synced()
    {
      activeTab := tabId;
      Refresh();
    }

    /**
     * `saveTransaction(id)` on the submitted `form`. A rejected form changes
     * nothing and writes nothing. An accepted one is normalised with the
     * identifier `id` (edit) or `now`, the value of `Date.now()` (add); an add
     * appends it, an edit replaces the first transaction holding `id` (nothing,
     * when none does); then `db` is saved and the active tab re-rendered.
     */
    method SaveTransaction(id: Option<int>, form: Form, now: int) returns (saved: bool)
      modifies this`transactions, this`stored, this`writes, this`view
      ensures saved <==> form.value.Some? && form.value.value != 0 && form.date.Some?
      ensures !saved ==> && transactions == old(transactions)
                         && stored == old(stored)
                         && writes == old(writes)
                         && view == old(view)
      ensures saved ==> var record := Normalise(if id.Some? then id.value else now, form).value;
                        transactions == if id.Some? then ReplaceFirst(old(transactions), id.value, record)
                                        else old(transactions) + [record]
      ensures saved ==> stored == Some(Snapshot()) && writes == old(writes) + 1 && Synced()
      ensures old(LedgerInvariant()) && (id.None? ==> !HasId(old(transactions), now)) ==> LedgerInvariant()
    {
      var recordId := if id.Some? then id.value else now;
      var record := Normalise(recordId, form);
      if record.None? {
        saved := false;
        return;
      }
      if id.Some? {
        var index := FindIndex(transactions, id.value);
        if 0 <= index {
          transactions := transactions[index := record.value];
        }
      } else {
        transactions := transactions + [record.value];
      }
      SaveData();
      Refresh();
      saved := true;
      if old(LedgerInvariant()) && (id.None? ==> !HasId(old(transactions), now)) {
        ConsistencyKept(old(transactions), recordId, form);
        if id.Some? {
          if HasId(old(transactions), id.value) {
            EditLeavesExactlyOne(old(transactions), id.value, record.value);
          }
        } else {
          AddKeepsUniqueIds(old(transactions), record.value);
        }
      }
    }

    /**
     * `deleteTransaction(id)`: when the user confirms, keep every transaction
     * whose identifier differs, save and re-render; otherwise nothing happens.
     */
    method DeleteTransaction(id: int, confirmed: bool)
      modifies this`transactions, this`stored, this`writes, this`view
      ensures !confirmed ==> && transactions == old(transactions)
                             && stored == old(stored)
                             && writes == old(writes)
                             && view == old(view)
      ensures confirmed ==> && transactions == Without(old(transactions), id)
                            && stored == Some(Snapshot())
                            && writes == old(writes) + 1
                            && Synced()
      ensures old(LedgerInvariant()) ==> LedgerInvariant()
    {
      if confirmed {
        transactions := Without(transactions, id);
        SaveData();
        Refresh();
        if old(LedgerInvariant()) {
          WithoutKeepsUniqueIds(old(transactions), id);
          WithoutKeepsConsistency(old(transactions), id);
        }
      }
    }
  }
}
